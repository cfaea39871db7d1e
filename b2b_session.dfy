/** A back-to-back user agent leg (AmB2BSession and its caller and callee
    specialisations): it relays SIP between its own dialog and the peer leg
    identified by other_id, keeps ledgers of the transactions it relays,
    caches the established session description, and optionally relays RTP
    through a fixed set of relay streams. */
module B2B {
  import opened Wrappers
  import opened SipMessages
  import opened SessionDescription
  import opened RelayStreams
  import opened TransactionLedger
  import opened B2BEvents

  /** What the effects of relaying depend on from the relay: whether RTP
      is relayed, and the relay slots. */
  datatype RelayView = RelayView(enabled: bool, streams: seq<RelayStream>)

  /** The part of a leg that handling an event from the peer changes: the
      two ledgers, the dialog CSeq, what the dialog has been handed, the
      cached description, the peer, whether the leg has stopped, and the
      peer's relay sockets. */
  datatype LegState = LegState(recvd: RecvdLedger, relayed: RelayedLedger, cseq: nat, trace: seq<Effect>,
                               cache: SessionCache, peer: string, stopped: bool, fds: seq<nat>)

  class B2BSession {
    const role: Role
    /** This leg's own dialog tag (dlg.local_tag). */
    const localTag: string
    /** The hash over the hashed region of a description (hashlittle). */
    const hash: string -> uint32
    /** The SDP parser and printer. */
    const parseSdp: string -> Option<SdpBody>
    const printSdp: SdpBody -> string
    /** The address this host advertises in rewritten descriptions. */
    const advertisedIp: string
    const relayStreams: array<RelayStream>
    /** The peer's relay sockets registered with the RTP receiver; 0 is none. */
    const otherStreamFds: array<nat>

    var otherId: string
    var sipRelayOnly: bool
    var b2bMode: B2BMode
    var rtpRelayEnabled: bool
    /** Whether refreshes use UPDATE (refresh_method == REFRESH_UPDATE). */
    var refreshByUpdate: bool
    var recvdReq: RecvdLedger
    var relayedReq: RelayedLedger
    var establishedContentType: string
    var establishedBody: string
    var bodyHash: uint32
    /** The CSeq the dialog gives its next request (dlg.cseq). */
    var dlgCseq: nat
    var remoteParty: string
    var remoteUri: string
    var stopped: bool
    /** Everything handed to collaborators so far, in order. */
    var trace: seq<Effect>
    /** Caller leg only. */
    var calleeStatus: CalleeStatus
    var inviteReq: SipRequest
    var sipRelayEarlyMediaSdp: bool

    /** Both relay arrays have one slot per relay stream, and every relayed
        transaction is recorded under a CSeq this dialog has already used
        or is about to use. */
    ghost predicate Valid()
      reads this`relayedReq, this`dlgCseq
    {
      && relayStreams.Length == MaxRelayStreams
      && otherStreamFds.Length == MaxRelayStreams
      && (forall k :: k in relayedReq ==> k <= dlgCseq)
    }

    /** A caller leg (AmB2BCallerSession): SIP relay only, transparent,
        no callee yet, RTP relay off. */
    constructor CallerLeg(localTag: string, hash: string -> uint32, parseSdp: string -> Option<SdpBody>,
                       printSdp: SdpBody -> string, advertisedIp: string,
                       streams: seq<RelayStream>, initialCseq: nat, refreshByUpdate: bool)
      requires |streams| == MaxRelayStreams
      ensures Valid() && role == Caller && this.localTag == localTag
      ensures otherId == "" && sipRelayOnly && b2bMode == Transparent && !rtpRelayEnabled
      ensures recvdReq == map[] && relayedReq == map[] && dlgCseq == initialCseq
      ensures calleeStatus == NoCallee && !sipRelayEarlyMediaSdp && !stopped && trace == []
      ensures relayStreams[..] == streams
      ensures forall i :: 0 <= i < otherStreamFds.Length ==> otherStreamFds[i] == 0
      ensures fresh(relayStreams) && fresh(otherStreamFds)
    {
      role := Caller;
      this.localTag := localTag;
      this.hash := hash;
      this.parseSdp := parseSdp;
      this.printSdp := printSdp;
      this.advertisedIp := advertisedIp;
      relayStreams := new RelayStream[MaxRelayStreams](i => if 0 <= i < |streams| then streams[i] else RelayStream(None, 0, None));
      otherStreamFds := new nat[MaxRelayStreams](_ => 0);
      otherId := "";
      sipRelayOnly := true;
      b2bMode := Transparent;
      rtpRelayEnabled := false;
      this.refreshByUpdate := refreshByUpdate;
      recvdReq := map[];
      relayedReq := map[];
      establishedContentType := "";
      establishedBody := "";
      bodyHash := 0;
      dlgCseq := initialCseq;
      remoteParty := "";
      remoteUri := "";
      stopped := false;
      trace := [];
      calleeStatus := NoCallee;
      inviteReq := SipRequest("", 0, "", "", "", 0, 0, "", 0);
      sipRelayEarlyMediaSdp := false;
    }

    /** A callee leg (AmB2BCalleeSession) linked to the caller whose tag is
        `otherTag`, in the caller's B2B mode. */
    constructor CalleeLeg(localTag: string, otherTag: string, mode: B2BMode, hash: string -> uint32,
                       parseSdp: string -> Option<SdpBody>, printSdp: SdpBody -> string,
                       advertisedIp: string, streams: seq<RelayStream>, initialCseq: nat, refreshByUpdate: bool)
      requires |streams| == MaxRelayStreams
      ensures Valid() && role == Callee && this.localTag == localTag
      ensures otherId == otherTag && sipRelayOnly && b2bMode == mode && !rtpRelayEnabled
      ensures recvdReq == map[] && relayedReq == map[] && dlgCseq == initialCseq
      ensures !stopped && trace == []
      ensures relayStreams[..] == streams
      ensures forall i :: 0 <= i < otherStreamFds.Length ==> otherStreamFds[i] == 0
      ensures fresh(relayStreams) && fresh(otherStreamFds)
    {
      role := Callee;
      this.localTag := localTag;
      this.hash := hash;
      this.parseSdp := parseSdp;
      this.printSdp := printSdp;
      this.advertisedIp := advertisedIp;
      relayStreams := new RelayStream[MaxRelayStreams](i => if 0 <= i < |streams| then streams[i] else RelayStream(None, 0, None));
      otherStreamFds := new nat[MaxRelayStreams](_ => 0);
      otherId := otherTag;
      sipRelayOnly := true;
      b2bMode := mode;
      rtpRelayEnabled := false;
      this.refreshByUpdate := refreshByUpdate;
      recvdReq := map[];
      relayedReq := map[];
      establishedContentType := "";
      establishedBody := "";
      bodyHash := 0;
      dlgCseq := initialCseq;
      remoteParty := "";
      remoteUri := "";
      stopped := false;
      trace := [];
      calleeStatus := NoCallee;
      inviteReq := SipRequest("", 0, "", "", "", 0, 0, "", 0);
      sipRelayEarlyMediaSdp := false;
    }

    // ---------------------------------------------------------------
    // Relaying events to the peer leg

    /** The peer an event goes to: a caller leg without a peer creates a
        callee first for a forwarded SIP event or a connect event; any
        other leg posts to the peer it has, if any. */
    function RelayTarget(peer: string, ev: B2BEvent, env: Env): (to: string)
      ensures peer != "" ==> to == peer
      ensures to == "" <==> peer == "" && !(role == Caller && CreatesCallee(ev))
    {
      if role == Caller && peer == "" && CreatesCallee(ev) then env.newId else peer
    }

    /** What relaying an event hands over: the creation of a callee when
        one is created, then the post, unless there is no peer to post to. */
    function RelayTrace(peer: string, ev: B2BEvent, env: Env): (effects: seq<Effect>)
      ensures |effects| <= 2
      ensures peer != "" ==> effects == [Posted(peer, ev, env.postOk)]
    {
      var to := RelayTarget(peer, ev, env);
      (if to != peer then [CalleeCreated(to)] else [])
      + (if to == "" then [] else [Posted(to, ev, env.postOk)])
    }

    /** AmB2BSession::relayEvent: post to the peer; with no peer the event
        is dropped and that is not an error. */
    method BaseRelayEvent(ev: B2BEvent, env: Env) returns (r: int)
      modifies this`trace
      ensures otherId == "" ==> r == 0 && trace == old(trace)
      ensures otherId != "" ==>
        r == (if env.postOk then 0 else -1) && trace == old(trace) + [Posted(otherId, ev, env.postOk)]
    {
      r := 0;
      if otherId != "" {
        trace := trace + [Posted(otherId, ev, env.postOk)];
        if !env.postOk {
          r := -1;
        }
      }
    }

    /** AmB2BCallerSession::createCalleeSession: the new callee's identity
        becomes other_id. */
    method CreateCalleeSession(env: Env)
      modifies this`otherId, this`trace
      ensures otherId == env.newId && otherId != ""
      ensures trace == old(trace) + [CalleeCreated(env.newId)]
    {
      otherId := env.newId;
      trace := trace + [CalleeCreated(otherId)];
    }

    /** relayEvent as dispatched on the leg's role. */
    method RelayEvent(ev: B2BEvent, env: Env) returns (r: int)
      modifies this`otherId, this`trace
      ensures otherId == RelayTarget(old(otherId), ev, env)
      ensures trace == old(trace) + RelayTrace(old(otherId), ev, env)
      ensures r == (if otherId != "" && !env.postOk then -1 else 0)
    {
      if role == Caller && otherId == "" && CreatesCallee(ev) {
        CreateCalleeSession(env);
      }
      r := BaseRelayEvent(ev, env);
    }

    /** AmB2BSession::terminateOtherLeg: tell the peer to terminate, then
        forget it. */
    method BaseTerminateOtherLeg(env: Env)
      modifies this`otherId, this`trace
      ensures otherId == ""
      ensures trace == old(trace) + TerminatePost(old(otherId), env.postOk)
    {
      if otherId != "" {
        var ignored := RelayEvent(TerminateLegEv, env);
      }
      otherId := "";
    }

    /** terminateOtherLeg as dispatched on the role: a caller also forgets
        its callee's state. */
    method TerminateOtherLeg(env: Env)
      modifies this`otherId, this`trace, this`calleeStatus
      ensures otherId == ""
      ensures trace == old(trace) + TerminatePost(old(otherId), env.postOk)
      ensures calleeStatus == (if role == Caller then NoCallee else old(calleeStatus))
    {
      BaseTerminateOtherLeg(env);
      if role == Caller {
        calleeStatus := NoCallee;
      }
    }

    // ---------------------------------------------------------------
    // Relay streams

    /** clearRtpReceiverRelay: every peer socket and every own socket of
        the relay slots is removed from the RTP receiver, and the peer's
        sockets are forgotten. */
    method ClearRtpReceiverRelay()
      requires Valid()
      modifies otherStreamFds, this`trace
      ensures forall i :: 0 <= i < otherStreamFds.Length ==> otherStreamFds[i] == 0
      ensures trace == old(trace) + [StreamsRemoved(ReleasedSockets(old(otherStreamFds[..]), relayStreams[..], MaxRelayStreams))]
    {
      ghost var fds := otherStreamFds[..];
      var removed: seq<nat> := [];
      for i := 0 to MaxRelayStreams
        invariant forall j :: 0 <= j < i ==> otherStreamFds[j] == 0
        invariant forall j :: i <= j < MaxRelayStreams ==> otherStreamFds[j] == fds[j]
        invariant removed == ReleasedSockets(fds, relayStreams[..], i)
        invariant trace == old(trace)
      {
        if otherStreamFds[i] != 0 {
          removed := removed + [otherStreamFds[i]];
          otherStreamFds[i] := 0;
        }
        if relayStreams[i].localSocket != 0 {
          removed := removed + [relayStreams[i].localSocket];
        }
      }
      assert fds == old(otherStreamFds[..]);
      trace := trace + [StreamsRemoved(removed)];
    }

    /** The peer's sockets after terminateLeg: all forgotten when relaying
        RTP, untouched otherwise. */
    function TerminatedFds(rv: RelayView, fds: seq<nat>): (r: seq<nat>)
      ensures |r| == |fds|
      ensures rv.enabled ==> forall i :: 0 <= i < |r| ==> r[i] == 0
      ensures !rv.enabled ==> r == fds
    {
      if rv.enabled then seq(|fds|, _ => 0) else fds
    }

    /** The relay as the effects of relaying see it. */
    function Relay(): (rv: RelayView)
      reads this`rtpRelayEnabled, relayStreams
      ensures rv.enabled == rtpRelayEnabled && rv.streams == relayStreams[..]
    {
      RelayView(rtpRelayEnabled, relayStreams[..])
    }

    /** set_sip_relay_only. */
    method SetSipRelayOnly(r: bool)
      modifies this`sipRelayOnly
      ensures sipRelayOnly == r
    {
      sipRelayOnly := r;
    }

    /** clear_other: forget the peer. */
    method ClearOther()
      modifies this`otherId
      ensures otherId == ""
    {
      otherId := "";
    }

    /** enableRtpRelay: relay RTP through this leg from now on. */
    method EnableRtpRelay()
      modifies this`rtpRelayEnabled
      ensures rtpRelayEnabled
    {
      rtpRelayEnabled := true;
    }

    /** disableRtpRelay: stop relaying RTP through this leg. */
    method DisableRtpRelay()
      modifies this`rtpRelayEnabled
      ensures !rtpRelayEnabled
    {
      rtpRelayEnabled := false;
    }

    /** setupRelayStreams: when relaying RTP and given another leg, record
        that leg's relay sockets as this leg's peer sockets, slot by slot;
        otherwise nothing changes. */
    method SetupRelayStreams(other: B2BSession?)
      requires Valid()
      requires other != null ==> other.relayStreams.Length == MaxRelayStreams
      modifies otherStreamFds
      ensures rtpRelayEnabled && other != null ==> otherStreamFds[..] == LocalSockets(other.relayStreams[..])
      ensures !rtpRelayEnabled || other == null ==> otherStreamFds[..] == old(otherStreamFds[..])
    {
      if !rtpRelayEnabled {
        return;
      }
      if other == null {
        return;
      }
      for i := 0 to MaxRelayStreams
        invariant forall j :: 0 <= j < i ==> otherStreamFds[j] == other.relayStreams[j].localSocket
      {
        otherStreamFds[i] := other.relayStreams[i].localSocket;
      }
      assert otherStreamFds[..] == LocalSockets(other.relayStreams[..]);
    }

    /** initializeRTPRelay: when the caller relays RTP, the new callee
        relays too, and each leg records the other's relay sockets as its
        peer sockets. The two legs are distinct sessions, each with its own
        arrays. */
    method InitializeRtpRelay(callee: B2BSession?)
      requires Valid() && role == Caller
      requires callee != null ==> callee.Valid() && callee != this && callee.otherStreamFds != otherStreamFds
      modifies otherStreamFds, (if callee == null then {} else {callee})`rtpRelayEnabled,
               if callee == null then {} else {callee.otherStreamFds}
      ensures callee != null && old(rtpRelayEnabled) ==>
        && callee.rtpRelayEnabled
        && callee.otherStreamFds[..] == LocalSockets(relayStreams[..])
        && otherStreamFds[..] == LocalSockets(callee.relayStreams[..])
      ensures callee == null || !old(rtpRelayEnabled) ==>
        otherStreamFds[..] == old(otherStreamFds[..])
        && (callee != null ==> callee.rtpRelayEnabled == old(callee.rtpRelayEnabled)
                               && callee.otherStreamFds[..] == old(callee.otherStreamFds[..]))
    {
      if callee == null || !rtpRelayEnabled {
        return;
      }
      callee.EnableRtpRelay();
      callee.SetupRelayStreams(this);
      SetupRelayStreams(callee);
    }

    /** terminateLeg: stop, release the relay, and say BYE on a dialog that
        is pending or established. */
    method TerminateLeg(env: Env)
      requires Valid()
      modifies this`stopped, this`trace, otherStreamFds
      ensures State() == Terminated(Relay(), old(State()), env)
    {
      stopped := true;
      if rtpRelayEnabled {
        ClearRtpReceiverRelay();
      }
      if env.dialogStatus == DialogPending || env.dialogStatus == DialogConnected {
        trace := trace + [ByeSent];
      }
    }

    /** updateRelayStreams: learn the remote endpoint of each relay slot
        from the description, one media line per slot. */
    method UpdateRelayStreams(contentType: string, body: string, parsed: Option<SdpBody>)
      requires Valid()
      modifies relayStreams
      ensures RemotesLearned(old(relayStreams[..]), relayStreams[..], SdpToLearn(contentType, body, parsed, parseSdp))
    {
      if body == "" || contentType != APPLICATION_SDP {
        return;
      }
      var sdp: SdpBody;
      if parsed.Some? && parsed.value.media != [] {
        sdp := parsed.value;
      } else {
        var p := parseSdp(body);
        if p.None? {
          return;
        }
        sdp := p.value;
      }
      var i := 0;
      while i < |sdp.media|
        invariant 0 <= i <= |sdp.media| && i <= MaxRelayStreams
        invariant forall j :: 0 <= j < MaxRelayStreams ==>
          relayStreams[j] == if j < i then old(relayStreams[j]).(remote := Some(RemoteOf(sdp, j))) else old(relayStreams[j])
      {
        if i >= MaxRelayStreams {
          break;
        }
        var m := sdp.media[i];
        var addr := if m.conn == "" then sdp.conn else m.conn;
        relayStreams[i] := relayStreams[i].(remote := Some(Endpoint(addr, m.port)));
        i := i + 1;
      }
    }

    /** The description rewritten for the relay, if it can be. */
    function RewrittenBody(rv: RelayView, contentType: string, body: string): Option<string>
    {
      RewrittenDescription(contentType, body, parseSdp, printSdp, rv.streams, advertisedIp)
    }

    /** The body an SDP-carrying message goes out with: the rewritten one
        when relaying RTP and the rewrite succeeds, else the original. */
    function OutgoingBody(rv: RelayView, contentType: string, body: string): string
    {
      if rv.enabled && RewrittenBody(rv, contentType, body).Some? then RewrittenBody(rv, contentType, body).value else body
    }

    /** replaceConnectionAddress: rewrite the session and media addresses to
        the advertised one and the ports of the media lines that have a
        relay slot to the slots' local ports. */
    method ReplaceConnectionAddress(contentType: string, body: string) returns (ok: bool, rBody: string)
      requires Valid()
      ensures ok == RewrittenBody(Relay(), contentType, body).Some?
      ensures ok ==> rBody == RewrittenBody(Relay(), contentType, body).value
    {
      if body == "" || contentType != APPLICATION_SDP {
        return false, "";
      }
      var parsed := parseSdp(body);
      if parsed.None? {
        return false, "";
      }
      var sdp := parsed.value;
      var conn := sdp.conn;
      if conn != "" {
        conn := advertisedIp;
      }
      var media := sdp.media;
      RewriteLinesMeaning(sdp.media, relayStreams[..], advertisedIp);
      var i := 0;
      while i < |media|
        invariant 0 <= i <= |media| == |sdp.media| && i <= MaxRelayStreams
        invariant forall j :: 0 <= j < i ==>
          relayStreams[j].localPort.Some?
          && media[j] == Media(Advertised(sdp.media[j].conn, advertisedIp), relayStreams[j].localPort.value)
        invariant forall j :: i <= j < |media| ==> media[j] == sdp.media[j]
      {
        if i >= MaxRelayStreams {
          break;
        }
        var m := media[i];
        if m.conn != "" {
          m := m.(conn := advertisedIp);
        }
        var port := relayStreams[i].localPort;
        if port.None? {
          assert relayStreams[..][i].localPort.None?;
          return false, "";
        }
        media := media[i := m.(port := port.value)];
        i := i + 1;
      }
      assert media == RewriteLines(sdp.media, relayStreams[..], advertisedIp).value;
      ok, rBody := true, printSdp(SdpBody(conn, media));
    }

    /** The body an SDP-carrying message goes out with, as every relaying
        path computes it: rewritten when relaying RTP and the rewrite
        succeeds. */
    method RelayBody(contentType: string, body: string) returns (out: string)
      requires Valid()
      ensures out == OutgoingBody(Relay(), contentType, body)
    {
      out := body;
      if rtpRelayEnabled {
        var ok, rBody := ReplaceConnectionAddress(contentType, body);
        if ok {
          out := rBody;
        }
      }
    }

    // ---------------------------------------------------------------
    // The established session description

    /** The cached description. */
    function Cache(): SessionCache
      reads this`establishedContentType, this`establishedBody, this`bodyHash
    {
      SessionCache(establishedContentType, establishedBody, bodyHash)
    }

    /** saveSessionDescription: cache the description and the hash of its
        hashed region. */
    method SaveSessionDescription(contentType: string, body: string)
      modifies this`establishedContentType, this`establishedBody, this`bodyHash
      ensures Cache() == Saved(hash, contentType, body)
    {
      establishedContentType := contentType;
      establishedBody := body;
      var start, len := HashedRange(contentType, body);
      assert body[start..start + len] == HashRegion(contentType, body);
      bodyHash := hash(body[start..start + len]);
    }

    /** updateSessionDescription: replace the cached description when the
        hash of the new one's hashed region differs, and say whether it did. */
    method UpdateSessionDescription(contentType: string, body: string) returns (changed: bool)
      modifies this`establishedContentType, this`establishedBody, this`bodyHash
      ensures (Cache(), changed) == Updated(old(Cache()), hash, contentType, body)
      ensures bodyHash == hash(HashRegion(contentType, body))
      ensures changed <==> old(bodyHash) != hash(HashRegion(contentType, body))
    {
      var start, len := HashedRange(contentType, body);
      assert body[start..start + len] == HashRegion(contentType, body);
      var newHash := hash(body[start..start + len]);
      changed := false;
      if bodyHash != newHash {
        bodyHash := newHash;
        establishedContentType := contentType;
        establishedBody := body;
        changed := true;
      }
    }

    // ---------------------------------------------------------------
    // What the dialog is handed

    /** The effects of terminateLeg beyond stopping: the relay's sockets are
        released when relaying RTP, and a BYE goes out on a dialog that is
        pending or established. */
    function TerminationTrace(rv: RelayView, fds: seq<nat>, env: Env): seq<Effect>
      requires |fds| == MaxRelayStreams && |rv.streams| == MaxRelayStreams
    {
      (if rv.enabled then [StreamsRemoved(ReleasedSockets(fds, rv.streams, MaxRelayStreams))] else [])
      + (if env.dialogStatus == DialogPending || env.dialogStatus == DialogConnected then [ByeSent] else [])
    }

    /** The leg's state after terminateLeg: stopped, the teardown handed
        over, and the peer's sockets forgotten when relaying RTP. */
    function Terminated(rv: RelayView, s: LegState, env: Env): (t: LegState)
      requires |s.fds| == MaxRelayStreams && |rv.streams| == MaxRelayStreams
      ensures t.stopped && |t.fds| == |s.fds|
      ensures t.recvd == s.recvd && t.relayed == s.relayed && t.cseq == s.cseq && t.cache == s.cache && t.peer == s.peer
    {
      s.(trace := s.trace + TerminationTrace(rv, s.fds, env), stopped := true, fds := TerminatedFds(rv, s.fds))
    }

    /** A re-INVITE with a description, sent with CSeq `cseq`. */
    function ReInviteEffect(rv: RelayView, contentType: string, body: string, cseq: nat, env: Env): Effect
    {
      RequestSent(INVITE, contentType, OutgoingBody(rv, contentType, body), "", cseq, env.sendOk)
    }

    /** What relaySip hands the dialog for a request from the peer, given
        relayed_req and the dialog CSeq before the call: a non-ACK goes out
        with this leg's CSeq, the translated RAck header for a PRACK and
        the rewritten description; an ACK goes out as the ACK of the first
        relayed transaction with its CSeq, or not at all. */
    ghost function RelayedRequestTrace(rv: RelayView, req: SipRequest, relayed: RelayedLedger, cseq: nat, env: Env): seq<Effect>
    {
      if req.sipMethod != ACK then
        var body := if CarriesSdp(req.sipMethod) then OutgoingBody(rv, req.contentType, req.body) else req.body;
        var hdrs := RelayedHeaders(req, relayed[cseq := Transaction(req.sipMethod, req.cseq, req.tt)]);
        [RequestSent(req.sipMethod, req.contentType, body, hdrs, cseq, env.sendOk)]
      else AckTrace(req, relayed)
    }

    /** What relaySip hands the dialog for an ACK from the peer: the ACK of
        the first relayed transaction with the ACK's CSeq as peer CSeq, or
        nothing. */
    ghost function AckTrace(req: SipRequest, relayed: RelayedLedger): seq<Effect> {
      match FirstMatch(relayed, req.cseq)
      case None => []
      case Some(k) => [AckSent(Transaction(relayed[k].sipMethod, k, relayed[k].tt), req.contentType, req.body, req.hdrs)]
    }

    /** The cached description after relaySip sends a request: an INVITE or
        UPDATE with a body, or an ACK with a body for a relayed INVITE,
        becomes the established description, unless refreshes use UPDATE. */
    ghost function CacheAfterRelay(c: SessionCache, req: SipRequest, relayed: RelayedLedger): SessionCache
      reads this`refreshByUpdate
    {
      var saves :=
        if req.sipMethod != ACK then req.sipMethod == INVITE || req.sipMethod == UPDATE
        else match FirstMatch(relayed, req.cseq)
          case None => false
          case Some(k) => relayed[k].sipMethod == INVITE;
      if !refreshByUpdate && req.body != "" && saves then Saved(hash, req.contentType, req.body) else c
    }

    /** The reply relaySip sends on this leg's side for the peer's reply:
        an RSeq header is added for a reliable provisional, and the
        description is rewritten for INVITE, UPDATE and ACK transactions. */
    function RelayedReplyEffect(rv: RelayView, orig: SipRequest, reply: SipReply): Effect
    {
      ReplySent(orig, reply.code, reply.reason, reply.contentType,
                if CarriesSdp(orig.sipMethod) then OutgoingBody(rv, reply.contentType, reply.body) else reply.body,
                if reply.rseq != 0 then reply.hdrs + RSeqHeader(reply.rseq) else reply.hdrs)
    }

    /** The cached description after relaying a reply: the body of a reply
        to an INVITE or UPDATE becomes established, unless refreshes use
        UPDATE. */
    function CacheAfterReply(c: SessionCache, orig: SipRequest, reply: SipReply): SessionCache
      reads this`refreshByUpdate
    {
      if !refreshByUpdate && (orig.sipMethod == INVITE || orig.sipMethod == UPDATE) && reply.body != ""
      then Saved(hash, reply.contentType, reply.body)
      else c
    }

    /** The dialog's sendRequest: the request goes out with the current
        CSeq, which advances when sending succeeds. */
    method SendRequest(sipMethod: string, contentType: string, body: string, hdrs: string, env: Env) returns (r: int)
      modifies this`dlgCseq, this`trace
      ensures trace == old(trace) + [RequestSent(sipMethod, contentType, body, hdrs, old(dlgCseq), env.sendOk)]
      ensures dlgCseq == old(dlgCseq) + (if env.sendOk then 1 else 0)
      ensures r == (if env.sendOk then 0 else -1)
    {
      trace := trace + [RequestSent(sipMethod, contentType, body, hdrs, dlgCseq, env.sendOk)];
      if env.sendOk {
        dlgCseq := dlgCseq + 1;
        r := 0;
      } else {
        r := -1;
      }
    }

    /** sendEstablishedReInvite: re-INVITE with the cached description;
        -1 without sending when none is cached. */
    method SendEstablishedReInvite(env: Env) returns (r: int)
      requires Valid()
      modifies this`dlgCseq, this`trace
      ensures Valid()
      ensures establishedContentType == "" || establishedBody == "" ==>
        r == -1 && trace == old(trace) && dlgCseq == old(dlgCseq)
      ensures establishedContentType != "" && establishedBody != "" ==>
        && trace == old(trace) + [ReInviteEffect(Relay(), establishedContentType, establishedBody, old(dlgCseq), env)]
        && dlgCseq == old(dlgCseq) + (if env.sendOk then 1 else 0)
        && r == (if env.sendOk then 0 else -1)
    {
      if establishedContentType == "" || establishedBody == "" {
        return -1;
      }
      var body := RelayBody(establishedContentType, establishedBody);
      r := SendRequest(INVITE, establishedContentType, body, "", env);
    }

    /** refresh: nothing unless the dialog is established; a leg without a
        peer, or one refreshing with UPDATE, refreshes as a plain session;
        otherwise it re-INVITEs with the cached description unless its own
        INVITE transaction is pending. */
    method Refresh(env: Env) returns (ok: bool)
      requires Valid()
      modifies this`dlgCseq, this`trace
      ensures Valid()
      ensures
        var connected := env.dialogStatus == DialogConnected;
        var plain := otherId == "" || refreshByUpdate;
        var reinvite := connected && !plain && !env.uacInvPending
                        && establishedContentType != "" && establishedBody != "";
        && ok == (if connected && plain then env.sendOk else reinvite && env.sendOk)
        && trace == old(trace) + (if connected && plain then [LocalRefresh(env.sendOk)]
                                  else if reinvite then [ReInviteEffect(Relay(), establishedContentType, establishedBody, old(dlgCseq), env)]
                                  else [])
        && dlgCseq == old(dlgCseq) + (if reinvite && env.sendOk then 1 else 0)
    {
      if env.dialogStatus != DialogConnected {
        return false;
      }
      if otherId == "" || refreshByUpdate {
        trace := trace + [LocalRefresh(env.sendOk)];
        return env.sendOk;
      }
      if env.uacInvPending {
        return false;
      }
      var r := SendEstablishedReInvite(env);
      ok := r == 0;
    }

    // ---------------------------------------------------------------
    // Relaying SIP

    /** relaySip for a request from the peer. */
    method RelaySipRequest(req: SipRequest, env: Env)
      requires Valid()
      modifies this`relayedReq, this`dlgCseq, this`trace, this`establishedContentType, this`establishedBody, this`bodyHash
      ensures Valid()
      ensures relayedReq == RelayedAfterRelay(old(relayedReq), old(dlgCseq), req)
      ensures dlgCseq == old(dlgCseq) + (if req.sipMethod != ACK && env.sendOk then 1 else 0)
      ensures trace == old(trace) + RelayedRequestTrace(Relay(), req, old(relayedReq), old(dlgCseq), env)
      ensures Cache() == CacheAfterRelay(old(Cache()), req, old(relayedReq))
      ensures req.sipMethod != ACK && env.sendOk ==> forall k :: k in relayedReq ==> k < dlgCseq
    {
      if req.sipMethod != ACK {
        RelayNewRequest(req, env);
      } else {
        RelayAck(req);
      }
    }

    /** relaySip for a request other than ACK: it is recorded under this
        leg's CSeq before it is sent. */
    method RelayNewRequest(req: SipRequest, env: Env)
      requires Valid() && req.sipMethod != ACK
      modifies this`relayedReq, this`dlgCseq, this`trace, this`establishedContentType, this`establishedBody, this`bodyHash
      ensures Valid()
      ensures relayedReq == RelayedAfterRelay(old(relayedReq), old(dlgCseq), req)
      ensures dlgCseq == old(dlgCseq) + (if env.sendOk then 1 else 0)
      ensures trace == old(trace) + RelayedRequestTrace(Relay(), req, old(relayedReq), old(dlgCseq), env)
      ensures Cache() == CacheAfterRelay(old(Cache()), req, old(relayedReq))
      ensures env.sendOk ==> forall k :: k in relayedReq ==> k < dlgCseq
    {
      relayedReq := relayedReq[dlgCseq := Transaction(req.sipMethod, req.cseq, req.tt)];
      var hdrs := req.hdrs;
      if req.sipMethod == PRACK && req.rseq != 0 {
        var found := FindByPeerCseq(relayedReq, req.rackCseq);
        if found.Some? {
          hdrs := req.hdrs + RAckHeader(req.rseq, found.value, req.rackMethod);
        }
      }
      var body := req.body;
      if CarriesSdp(req.sipMethod) {
        body := RelayBody(req.contentType, req.body);
      }
      var ignored := SendRequest(req.sipMethod, req.contentType, body, hdrs, env);
      if !refreshByUpdate && (req.sipMethod == INVITE || req.sipMethod == UPDATE) && req.body != "" {
        SaveSessionDescription(req.contentType, req.body);
      }
    }

    /** relaySip for an ACK: it acknowledges the first relayed transaction
        with the ACK's CSeq as peer CSeq, which is then forgotten; without
        one nothing is sent. */
    method RelayAck(req: SipRequest)
      requires Valid() && req.sipMethod == ACK
      modifies this`relayedReq, this`trace, this`establishedContentType, this`establishedBody, this`bodyHash
      ensures Valid()
      ensures relayedReq == RelayedAfterRelay(old(relayedReq), dlgCseq, req)
      ensures trace == old(trace) + AckTrace(req, old(relayedReq))
      ensures Cache() == CacheAfterRelay(old(Cache()), req, old(relayedReq))
    {
      var found := FindByPeerCseq(relayedReq, req.cseq);
      if found.None? {
        return;
      }
      var k := found.value;
      var t := relayedReq[k];
      trace := trace + [AckSent(Transaction(t.sipMethod, k, t.tt), req.contentType, req.body, req.hdrs)];
      if !refreshByUpdate && req.body != "" && t.sipMethod == INVITE {
        SaveSessionDescription(req.contentType, req.body);
      }
      relayedReq := relayedReq - {k};
    }

    /** relaySip for the peer's reply to a request this leg received. */
    method RelaySipReply(orig: SipRequest, reply: SipReply)
      requires Valid()
      modifies this`trace, this`establishedContentType, this`establishedBody, this`bodyHash
      ensures trace == old(trace) + [RelayedReplyEffect(Relay(), orig, reply)]
      ensures Cache() == CacheAfterReply(old(Cache()), orig, reply)
    {
      var hdrs := reply.hdrs;
      if reply.rseq != 0 {
        hdrs := reply.hdrs + RSeqHeader(reply.rseq);
      }
      var body := reply.body;
      if CarriesSdp(orig.sipMethod) {
        body := RelayBody(reply.contentType, reply.body);
      }
      trace := trace + [ReplySent(orig, reply.code, reply.reason, reply.contentType, body, hdrs)];
      if !refreshByUpdate && (orig.sipMethod == INVITE || orig.sipMethod == UPDATE) && reply.body != "" {
        SaveSessionDescription(reply.contentType, reply.body);
      }
    }

    // ---------------------------------------------------------------
    // SIP from this leg's own dialog

    /** Whether a request from this leg's dialog is relayed to the peer. */
    predicate Forwards(req: SipRequest)
      reads this`sipRelayOnly
    {
      sipRelayOnly && req.sipMethod != BYE && req.sipMethod != CANCEL
    }

    /** filterBody in this leg's direction. */
    function Filtered(contentType: string, body: string): (string, Option<SdpBody>) {
      FilterBody(contentType, body, parseSdp, printSdp, role == Caller)
    }

    /** The body a received request is relayed with, and the parsed
        description filtering left behind: filtered for a forwarded
        INVITE, UPDATE or ACK outside transparent mode. */
    function RequestFilter(req: SipRequest): (string, Option<SdpBody>)
      reads this`sipRelayOnly, this`b2bMode
    {
      if Forwards(req) && b2bMode != Transparent && CarriesSdp(req.sipMethod)
      then Filtered(req.contentType, req.body)
      else (req.body, None)
    }

    /** onSipRequest: a forwarded request is recorded in recvd_req; any
        other is handled locally. Either way the request is posted to the
        peer, flagged with whether it is to be relayed, and the relay
        streams learn the description of an INVITE, UPDATE or ACK. */
    method OnSipRequest(req: SipRequest, env: Env)
      requires Valid()
      modifies this`recvdReq, this`trace, this`otherId, relayStreams
      ensures recvdReq == RecvdAfterRequest(old(recvdReq), req, Forwards(req))
      ensures
        var filtered := RequestFilter(req);
        var relayed := SipRequestEv(req.(body := filtered.0), Forwards(req));
        && otherId == RelayTarget(old(otherId), relayed, env)
        && trace == old(trace) + (if Forwards(req) then [] else [LocalRequest(req)]) + RelayTrace(old(otherId), relayed, env)
        && RemotesLearned(old(relayStreams[..]), relayStreams[..],
             if rtpRelayEnabled && CarriesSdp(req.sipMethod) then SdpToLearn(req.contentType, filtered.0, filtered.1, parseSdp) else None)
    {
      var fwd := sipRelayOnly && req.sipMethod != BYE && req.sipMethod != CANCEL;
      if !fwd {
        trace := trace + [LocalRequest(req)];
      } else if req.cseq !in recvdReq {
        recvdReq := recvdReq[req.cseq := req];
      }
      var relayed := req;
      var filterSdp: Option<SdpBody> := None;
      if fwd && b2bMode != Transparent && CarriesSdp(req.sipMethod) {
        var f := Filtered(req.contentType, req.body);
        relayed := req.(body := f.0);
        filterSdp := f.1;
      }
      if rtpRelayEnabled && CarriesSdp(req.sipMethod) {
        UpdateRelayStreams(relayed.contentType, relayed.body, filterSdp);
      }
      var ignored := RelayEvent(SipRequestEv(relayed, fwd), env);
    }

    /** onSipReply: a reply (other than 100) to a request relayed for the
        peer goes back to the peer under the peer's CSeq and method, and
        its entry leaves relayed_req on a final reply, except a 2xx to an
        INVITE; any other reply is handled locally and posted unforwarded. */
    method OnSipReply(reply: SipReply, transMethod: string, env: Env)
      requires Valid()
      modifies this`relayedReq, this`trace, this`otherId, relayStreams
      ensures Valid()
      ensures relayedReq == RelayedAfterReply(old(relayedReq), reply)
      ensures reply.cseq in old(relayedReq) && reply.code != 100 ==>
        var t := old(relayedReq)[reply.cseq];
        var filtered := if b2bMode != Transparent && (transMethod == INVITE || transMethod == UPDATE)
                        then Filtered(reply.contentType, reply.body) else (reply.body, None);
        var relayed := SipReplyEv(reply.(cseq := t.cseq, body := filtered.0), true, t.sipMethod);
        && otherId == RelayTarget(old(otherId), relayed, env)
        && trace == old(trace) + RelayTrace(old(otherId), relayed, env)
        && RemotesLearned(old(relayStreams[..]), relayStreams[..],
             if rtpRelayEnabled && 180 <= reply.code < 300 && CarriesSdp(transMethod)
             then SdpToLearn(reply.contentType, filtered.0, filtered.1, parseSdp) else None)
      ensures !(reply.cseq in old(relayedReq) && reply.code != 100) ==>
        var relayed := SipReplyEv(reply, false, transMethod);
        && otherId == RelayTarget(old(otherId), relayed, env)
        && trace == old(trace) + [LocalReply(reply, transMethod)] + RelayTrace(old(otherId), relayed, env)
        && relayStreams[..] == old(relayStreams[..])
    {
      var fwd := reply.cseq in relayedReq && reply.code != 100;
      if fwd {
        var t := relayedReq[reply.cseq];
        var relayed := reply.(cseq := t.cseq);
        var filterSdp: Option<SdpBody> := None;
        if b2bMode != Transparent && (transMethod == INVITE || transMethod == UPDATE) {
          var f := Filtered(reply.contentType, reply.body);
          relayed := relayed.(body := f.0);
          filterSdp := f.1;
        }
        if rtpRelayEnabled && 180 <= reply.code < 300 && CarriesSdp(transMethod) {
          UpdateRelayStreams(relayed.contentType, relayed.body, filterSdp);
        }
        var ignored := RelayEvent(SipReplyEv(relayed, true, t.sipMethod), env);
        if reply.code >= 200 {
          if !(reply.code < 300 && t.sipMethod == INVITE) {
            relayedReq := relayedReq - {reply.cseq};
          }
        }
      } else {
        trace := trace + [LocalReply(reply, transMethod)];
        var ignored := RelayEvent(SipReplyEv(reply, false, transMethod), env);
      }
    }

    /** onInvite2xx: a 2xx to an INVITE relayed for the peer is not
        acknowledged here; the peer's ACK is awaited. Any other is handled
        locally. */
    method OnInvite2xx(reply: SipReply)
      modifies this`trace
      ensures trace == old(trace) + (if reply.cseq in relayedReq then [] else [LocalInvite2xx(reply)])
    {
      if reply.cseq !in relayedReq {
        trace := trace + [LocalInvite2xx(reply)];
      }
    }

    // ---------------------------------------------------------------
    // Events from the peer leg

    /** onOtherBye: the peer's BYE or CANCEL ends this leg. */
    method OnOtherBye(env: Env)
      requires Valid()
      modifies this`stopped, this`trace, otherStreamFds
      ensures State() == Terminated(Relay(), old(State()), env)
    {
      TerminateLeg(env);
    }

    /** onOtherReply: a failure reply from the peer stops this leg; the
        reply is never consumed here. */
    method OnOtherReply(reply: SipReply) returns (processed: bool)
      modifies this`stopped
      ensures !processed
      ensures stopped == (old(stopped) || reply.code >= 300)
      ensures State() == old(State()).(stopped := old(stopped) || reply.code >= 300)
    {
      if reply.code >= 300 {
        stopped := true;
      }
      processed := false;
    }

    /** A request from the peer (the B2BSipRequest case of onB2BEvent): a
        forwarded request is relayed, except an INVITE while this leg's own
        INVITE transaction is pending, which is answered with 491; an
        unforwarded BYE or CANCEL ends this leg. */
    method OnB2BSipRequest(req: SipRequest, fwd: bool, env: Env)
      requires Valid()
      modifies this`relayedReq, this`dlgCseq, this`trace, this`establishedContentType, this`establishedBody,
               this`bodyHash, this`otherId, this`stopped, otherStreamFds
      ensures Valid()
      ensures State() == RequestHandled(Relay(), req, fwd, old(State()), env)
    {
      if fwd {
        if req.sipMethod == INVITE && env.uacInvPending {
          var ignored := RelayEvent(SipReplyEv(PendingReply(req.cseq), true, INVITE), env);
          return;
        }
        RelaySipRequest(req, env);
      } else if req.sipMethod == BYE || req.sipMethod == CANCEL {
        OnOtherBye(env);
      }
    }

    /** Whether an unforwarded reply from the peer changes the session: a
        2xx with a body to the peer's own INVITE or UPDATE whose hashed
        region hashes differently from the cached description. */
    predicate SessionChanged(reply: SipReply, cachedHash: uint32) {
      && Is2xx(reply.code) && reply.body != ""
      && (reply.sipMethod == INVITE || reply.sipMethod == UPDATE)
      && cachedHash != hash(HashRegion(reply.contentType, reply.body))
    }

    /** Whether such a change is followed by a re-INVITE of this leg's side:
        not while this leg's own INVITE transaction is pending, and only
        with a content type to send. */
    predicate PeerSessionReinvite(reply: SipReply, cachedHash: uint32, env: Env) {
      SessionChanged(reply, cachedHash) && !env.uacInvPending && reply.contentType != ""
    }

    /** Whether the peer's reply to a request this leg received ends this
        leg: a 487 to an INVITE. */
    predicate EndsOnReply(reply: SipReply, orig: SipRequest) {
      reply.code == 487 && orig.sipMethod == INVITE
    }

    /** An unforwarded reply from the peer: a 2xx with a body to the
        peer's own INVITE or UPDATE updates the cached description and,
        when it changed and no INVITE transaction of this leg is pending,
        re-INVITEs this leg's side with it. */
    method FollowPeerSession(reply: SipReply, env: Env)
      requires Valid()
      modifies this`trace, this`establishedContentType, this`establishedBody, this`bodyHash, this`dlgCseq
      ensures Valid()
      ensures State() == PeerSessionFollowed(Relay(), reply, old(State()), env)
    {
      if Is2xx(reply.code) && reply.body != "" && (reply.sipMethod == INVITE || reply.sipMethod == UPDATE) {
        AdoptPeerSession(reply, env);
      }
    }

    /** A 2xx with a body to the peer's own INVITE or UPDATE: cache its
        description and, when it changed and no INVITE transaction of this
        leg is pending, re-INVITE this leg's side with it. */
    method AdoptPeerSession(reply: SipReply, env: Env)
      requires Valid()
      requires Is2xx(reply.code) && reply.body != "" && (reply.sipMethod == INVITE || reply.sipMethod == UPDATE)
      modifies this`trace, this`establishedContentType, this`establishedBody, this`bodyHash, this`dlgCseq
      ensures Valid()
      ensures Cache() == (if SessionChanged(reply, old(bodyHash)) then Saved(hash, reply.contentType, reply.body) else old(Cache()))
      ensures PeerSessionReinvite(reply, old(bodyHash), env) ==>
        && trace == old(trace) + [ReInviteEffect(Relay(), reply.contentType, reply.body, old(dlgCseq), env)]
        && dlgCseq == old(dlgCseq) + (if env.sendOk then 1 else 0)
      ensures !PeerSessionReinvite(reply, old(bodyHash), env) ==> trace == old(trace) && dlgCseq == old(dlgCseq)
    {
      var changed := UpdateSessionDescription(reply.contentType, reply.body);
      if changed {
        if env.uacInvPending {
          return;
        }
        var ignored := SendEstablishedReInvite(env);
      }
    }

    /** A reply from the peer (the B2BSipReply case of onB2BEvent): a
        forwarded reply answers the request recorded under its CSeq in
        recvd_req and is relayed on this leg's side; a final one removes
        the entry, and a 487 to an INVITE also ends this leg. An
        unforwarded 2xx with a body to the peer's own INVITE or UPDATE
        updates the cached description and, when it changed and no INVITE
        transaction of this leg is pending, re-INVITEs this leg's side. */
    method OnB2BSipReply(reply: SipReply, fwd: bool, env: Env)
      requires Valid()
      modifies this`recvdReq, this`trace, this`establishedContentType, this`establishedBody, this`bodyHash,
               this`dlgCseq, this`stopped, otherStreamFds
      ensures Valid()
      ensures State() == ReplyHandled(Relay(), reply, fwd, old(State()), env)
    {
      if fwd {
        if reply.cseq in recvdReq {
          RelayRecordedReply(reply, env);
        }
      } else {
        FollowPeerSession(reply, env);
      }
    }

    /** A forwarded reply from the peer to a request recorded in recvd_req:
        relay it; a final one retires the entry, and a 487 to an INVITE
        ends this leg. */
    method RelayRecordedReply(reply: SipReply, env: Env)
      requires Valid() && reply.cseq in recvdReq
      modifies this`recvdReq, this`trace, this`establishedContentType, this`establishedBody, this`bodyHash,
               this`stopped, otherStreamFds
      ensures Valid()
      ensures State() == ForwardedReplyHandled(Relay(), reply, old(State()), env)
    {
      var orig := recvdReq[reply.cseq];
      RelaySipReply(orig, reply);
      if reply.code >= 200 {
        if orig.sipMethod == INVITE && reply.code == 487 {
          TerminateLeg(env);
        }
        recvdReq := recvdReq - {reply.cseq};
      }
    }

    /** The leg's state as event handling sees it. */
    function State(): LegState
      reads this`recvdReq, this`relayedReq, this`dlgCseq, this`trace, this`establishedContentType,
            this`establishedBody, this`bodyHash, this`otherId, this`stopped, otherStreamFds
    {
      LegState(recvdReq, relayedReq, dlgCseq, trace, Cache(), otherId, stopped, otherStreamFds[..])
    }

    /** The leg's state after a request from the peer: a deferred INVITE
        is answered with 491 through relayEvent, which may create a callee;
        another forwarded request is relayed, which records it in
        relayed_req, advances the CSeq when it is a non-ACK that was sent
        and may establish its description; an unforwarded BYE or CANCEL
        ends this leg. */
    ghost function RequestHandled(rv: RelayView, req: SipRequest, fwd: bool, s: LegState, env: Env): (t: LegState)
      requires |s.fds| == MaxRelayStreams && |rv.streams| == MaxRelayStreams
      reads this`refreshByUpdate
      ensures t.recvd == s.recvd
      ensures t.relayed == RelayedAfterPeerRequest(s.relayed, s.cseq, req, fwd, env.uacInvPending)
      ensures t.stopped == (s.stopped || PeerEnds(req, fwd))
      ensures |t.fds| == |s.fds|
    {
      if Deferred(req, fwd, env.uacInvPending) then
        var pending := SipReplyEv(PendingReply(req.cseq), true, INVITE);
        s.(peer := RelayTarget(s.peer, pending, env), trace := s.trace + RelayTrace(s.peer, pending, env))
      else if fwd then
        s.(relayed := RelayedAfterRelay(s.relayed, s.cseq, req),
           cseq := s.cseq + (if req.sipMethod != ACK && env.sendOk then 1 else 0),
           trace := s.trace + RelayedRequestTrace(rv, req, s.relayed, s.cseq, env),
           cache := CacheAfterRelay(s.cache, req, s.relayed))
      else if PeerEnds(req, fwd) then
        Terminated(rv, s, env)
      else s
    }

    /** The leg's state after a forwarded reply from the peer: a reply to
        a request recorded in recvd_req is relayed, a final one retires the
        entry, its description may become established, and a 487 to an
        INVITE ends this leg; any other reply changes nothing. */
    function ForwardedReplyHandled(rv: RelayView, reply: SipReply, s: LegState, env: Env): (t: LegState)
      requires |s.fds| == MaxRelayStreams && |rv.streams| == MaxRelayStreams
      reads this`refreshByUpdate
      ensures t.recvd == RecvdAfterPeerReply(s.recvd, reply, true)
      ensures t.relayed == s.relayed && t.peer == s.peer && t.cseq == s.cseq
      ensures s.stopped ==> t.stopped
      ensures |t.fds| == |s.fds|
    {
      if reply.cseq in s.recvd then
        var orig := s.recvd[reply.cseq];
        var relayed := s.(recvd := RecvdAfterPeerReply(s.recvd, reply, true),
                          trace := s.trace + [RelayedReplyEffect(rv, orig, reply)],
                          cache := CacheAfterReply(s.cache, orig, reply));
        if EndsOnReply(reply, orig) then Terminated(rv, relayed, env) else relayed
      else s
    }

    /** The leg's state after an unforwarded reply from the peer: when its
        description changes the peer's session it replaces the cached one,
        and this leg's side is re-INVITEd with it unless this leg's INVITE
        transaction is pending. */
    function PeerSessionFollowed(rv: RelayView, reply: SipReply, s: LegState, env: Env): (t: LegState)
      ensures t.recvd == s.recvd && t.relayed == s.relayed && t.peer == s.peer
      ensures t.stopped == s.stopped && t.fds == s.fds
    {
      var reinvite := PeerSessionReinvite(reply, s.cache.hash, env);
      s.(cache := if SessionChanged(reply, s.cache.hash) then Saved(hash, reply.contentType, reply.body) else s.cache,
         trace := s.trace + (if reinvite then [ReInviteEffect(rv, reply.contentType, reply.body, s.cseq, env)] else []),
         cseq := s.cseq + (if reinvite && env.sendOk then 1 else 0))
    }

    /** The leg's state after a reply from the peer, forwarded or not. */
    function ReplyHandled(rv: RelayView, reply: SipReply, fwd: bool, s: LegState, env: Env): (t: LegState)
      requires |s.fds| == MaxRelayStreams && |rv.streams| == MaxRelayStreams
      reads this`refreshByUpdate
      ensures t.recvd == RecvdAfterPeerReply(s.recvd, reply, fwd)
      ensures t.relayed == s.relayed && t.peer == s.peer
      ensures s.stopped ==> t.stopped
      ensures |t.fds| == |s.fds|
    {
      if fwd then ForwardedReplyHandled(rv, reply, s, env) else PeerSessionFollowed(rv, reply, s, env)
    }

    /** The leg's state after the common handler: requests and replies as
        above; a terminate event ends this leg; a connect event is not the
        common handler's. */
    ghost function HandledState(rv: RelayView, ev: B2BEvent, s: LegState, env: Env): (t: LegState)
      requires |s.fds| == MaxRelayStreams && |rv.streams| == MaxRelayStreams
      reads this`refreshByUpdate
      ensures |t.fds| == |s.fds|
      ensures s.stopped ==> t.stopped
      ensures !ev.SipReplyEv? ==> t.recvd == s.recvd
      ensures !ev.SipRequestEv? ==> t.relayed == s.relayed
    {
      match ev
      case SipRequestEv(req, fwd) => RequestHandled(rv, req, fwd, s, env)
      case SipReplyEv(reply, fwd, _) => ReplyHandled(rv, reply, fwd, s, env)
      case TerminateLegEv => Terminated(rv, s, env)
      case ConnectLegEv(_, _, _, _, _, _, _) => s
    }

    /** The common handler keeps every relayed transaction under a CSeq
        the dialog has used or is about to use, and a request it relays
        and sends leaves every such CSeq used. */
    lemma HandledKeepsCseqBound(rv: RelayView, ev: B2BEvent, s: LegState, env: Env)
      requires |s.fds| == MaxRelayStreams && |rv.streams| == MaxRelayStreams
      requires forall k :: k in s.relayed ==> k <= s.cseq
      ensures forall k :: k in HandledState(rv, ev, s, env).relayed ==> k <= HandledState(rv, ev, s, env).cseq
      ensures ev.SipRequestEv? && ev.forward && ev.req.sipMethod != ACK && !Deferred(ev.req, true, env.uacInvPending) && env.sendOk ==>
        forall k :: k in HandledState(rv, ev, s, env).relayed ==> k < HandledState(rv, ev, s, env).cseq
    {
    }

    /** AmB2BSession::onB2BEvent: dispatch on the event. */
    method BaseOnB2BEvent(ev: B2BEvent, env: Env)
      requires Valid()
      modifies this`recvdReq, this`relayedReq, this`dlgCseq, this`trace, this`establishedContentType,
               this`establishedBody, this`bodyHash, this`otherId, this`stopped, otherStreamFds
      ensures Valid()
      ensures State() == HandledState(Relay(), ev, old(State()), env)
    {
      match ev
      case SipRequestEv(req, fwd) =>
        OnB2BSipRequest(req, fwd, env);
      case SipReplyEv(reply, fwd, _) =>
        OnB2BSipReply(reply, fwd, env);
      case TerminateLegEv =>
        TerminateLeg(env);
      case ConnectLegEv(_, _, _, _, _, _, _) =>
    }

    // ---------------------------------------------------------------
    // The caller leg

    /** set_sip_relay_early_media_sdp. */
    method SetSipRelayEarlyMediaSdp(r: bool)
      modifies this`sipRelayEarlyMediaSdp
      ensures sipRelayEarlyMediaSdp == r
    {
      sipRelayEarlyMediaSdp := r;
    }

    /** onSessionStart: the caller keeps the initial INVITE and starts as
        a plain session. */
    method OnSessionStart(req: SipRequest)
      modifies this`inviteReq, this`trace
      ensures inviteReq == req
      ensures trace == old(trace) + [LocalSessionStart(req)]
    {
      inviteReq := req;
      trace := trace + [LocalSessionStart(req)];
    }

    /** reinviteCaller: re-INVITE the caller with the callee's description. */
    method ReinviteCaller(calleeReply: SipReply, env: Env) returns (r: int)
      requires Valid()
      modifies this`dlgCseq, this`trace
      ensures Valid()
      ensures trace == old(trace) + [RequestSent(INVITE, calleeReply.contentType, calleeReply.body, "", old(dlgCseq), env.sendOk)]
      ensures dlgCseq == old(dlgCseq) + (if env.sendOk then 1 else 0)
      ensures r != 0 <==> !env.sendOk
    {
      r := SendRequest(INVITE, calleeReply.contentType, calleeReply.body, "", env);
    }

    /** The first half of connectCallee: a callee that already answered or
        is still being called is told to end and forgotten. */
    method DropCallee(env: Env)
      requires role == Caller
      modifies this`otherId, this`trace, this`calleeStatus
      ensures calleeStatus == NoCallee
      ensures otherId == if old(calleeStatus) != NoCallee then "" else old(otherId)
      ensures trace == old(trace) + if old(calleeStatus) != NoCallee then TerminatePost(old(otherId), env.postOk) else []
    {
      if calleeStatus != NoCallee {
        TerminateOtherLeg(env);
      }
    }

    /** The initial INVITE about to be handed to a new callee: recorded as
        received when it is relayed (switching to SIP relay), and filtered
        in SDP-filter mode. */
    method PrepareInvite(relayedInvite: bool)
      modifies this`recvdReq, this`sipRelayOnly, this`inviteReq
      ensures recvdReq == RecvdAfterRequest(old(recvdReq), old(inviteReq), relayedInvite)
      ensures sipRelayOnly == (old(sipRelayOnly) || relayedInvite)
      ensures inviteReq == (if b2bMode == SdpFilter
                            then old(inviteReq).(body := FilterBody(old(inviteReq).contentType, old(inviteReq).body, parseSdp, printSdp, true).0)
                            else old(inviteReq))
    {
      if relayedInvite {
        if inviteReq.cseq !in recvdReq {
          recvdReq := recvdReq[inviteReq.cseq := inviteReq];
        }
        sipRelayOnly := true;
      }
      if b2bMode == SdpFilter {
        var f := FilterBody(inviteReq.contentType, inviteReq.body, parseSdp, printSdp, true);
        inviteReq := inviteReq.(body := f.0);
      }
    }

    /** connectCallee: drop any current callee, record the initial INVITE
        as received when it is relayed (and switch to SIP relay), and post
        a connect event carrying the INVITE's description, creating the
        callee; the callee has not answered yet. */
    method ConnectCallee(remoteParty: string, remoteUri: string, relayedInvite: bool, env: Env)
      requires Valid() && role == Caller
      modifies this`otherId, this`calleeStatus, this`trace, this`recvdReq, this`sipRelayOnly, this`inviteReq
      ensures calleeStatus == NoReply
      ensures recvdReq == RecvdAfterRequest(old(recvdReq), old(inviteReq), relayedInvite)
      ensures sipRelayOnly == (old(sipRelayOnly) || relayedInvite)
      ensures inviteReq == (if b2bMode == SdpFilter
                            then old(inviteReq).(body := FilterBody(old(inviteReq).contentType, old(inviteReq).body, parseSdp, printSdp, true).0)
                            else old(inviteReq))
      ensures otherId != ""
      ensures otherId == RelayTarget(if old(calleeStatus) != NoCallee then "" else old(otherId),
                                     ConnectLegEv(remoteParty, remoteUri, inviteReq.contentType, inviteReq.body, inviteReq.hdrs, relayedInvite, inviteReq.cseq), env)
      ensures trace == old(trace)
        + (if old(calleeStatus) != NoCallee then TerminatePost(old(otherId), env.postOk) else [])
        + RelayTrace(if old(calleeStatus) != NoCallee then "" else old(otherId),
                     ConnectLegEv(remoteParty, remoteUri, inviteReq.contentType, inviteReq.body, inviteReq.hdrs, relayedInvite, inviteReq.cseq), env)
    {
      DropCallee(env);
      PrepareInvite(relayedInvite);
      var ev := ConnectLegEv(remoteParty, remoteUri, inviteReq.contentType, inviteReq.body, inviteReq.hdrs, relayedInvite, inviteReq.cseq);
      var ignored := RelayEvent(ev, env);
      calleeStatus := NoReply;
    }

    /** Whether a reply from the callee moves the callee state: it answers
        the initial INVITE while the callee has not answered or is ringing. */
    predicate CalleeMoves(r: SipReply, status: CalleeStatus, inviteCseq: nat) {
      (status == NoReply || status == Ringing) && r.cseq == inviteCseq
    }

    /** Whether such a reply re-INVITEs the caller: an early-media
        provisional when so configured, or a 2xx, in both cases only while
        the caller is not yet relaying SIP. */
    predicate ReinvitesCaller(r: SipReply, relayOnly: bool)
      reads this`sipRelayEarlyMediaSdp
    {
      || (r.code < 200 && !relayOnly && sipRelayEarlyMediaSdp && 180 <= r.code <= 183 && r.body != "")
      || (Is2xx(r.code) && !relayOnly)
    }

    /** The callee state after a reply from the callee: a provisional makes
        it ringing, a 2xx connects it unless the re-INVITE of the caller
        could not be sent, a failure ends it; a reply that does not move
        the state leaves it. */
    function CalleeStatusAfter(r: SipReply, status: CalleeStatus, relayOnly: bool, inviteCseq: nat, env: Env): CalleeStatus {
      if !CalleeMoves(r, status, inviteCseq) then status
      else if r.code < 200 then Ringing
      else if r.code < 300 then (if relayOnly || env.sendOk then Connected else NoCallee)
      else NoCallee
    }

    /** Whether the caller relays SIP only after a reply from the callee: a
        2xx that moves the callee state switches it on for good. */
    predicate RelayOnlyAfter(r: SipReply, status: CalleeStatus, relayOnly: bool, inviteCseq: nat) {
      relayOnly || (CalleeMoves(r, status, inviteCseq) && Is2xx(r.code))
    }

    /** The answers the common handler sees after the callee state
        machine: a re-INVITE of the caller that was sent opens this leg's
        INVITE transaction, which is then pending; every other answer is
        the event's own. */
    function AnswersAfterCalleeStep(r: SipReply, status: CalleeStatus, relayOnly: bool, inviteCseq: nat, env: Env): (e: Env)
      reads this`sipRelayEarlyMediaSdp
      ensures e.uacInvPending <==> env.uacInvPending || (CalleeMoves(r, status, inviteCseq) && ReinvitesCaller(r, relayOnly) && env.sendOk)
      ensures e.postOk == env.postOk && e.dialogStatus == env.dialogStatus && e.sendOk == env.sendOk && e.newId == env.newId
    {
      env.(uacInvPending := env.uacInvPending || (CalleeMoves(r, status, inviteCseq) && ReinvitesCaller(r, relayOnly) && env.sendOk))
    }

    /** The leg's state after re-INVITEing the caller with the callee's
        description: the re-INVITE goes out with the dialog CSeq, which
        advances when it was sent; when it could not be sent, the callee is
        told to terminate and forgotten, and this leg ends. */
    function ReinviteOrEndState(rv: RelayView, r: SipReply, s: LegState, env: Env): (t: LegState)
      requires |s.fds| == MaxRelayStreams && |rv.streams| == MaxRelayStreams
      ensures t.recvd == s.recvd && t.relayed == s.relayed && t.cache == s.cache
      ensures |t.fds| == |s.fds|
      ensures t.stopped == (s.stopped || !env.sendOk)
    {
      var sent := s.(cseq := s.cseq + (if env.sendOk then 1 else 0),
                     trace := s.trace + [RequestSent(INVITE, r.contentType, r.body, "", s.cseq, env.sendOk)]);
      if env.sendOk then sent
      else Terminated(rv, sent.(trace := sent.trace + TerminatePost(s.peer, env.postOk), peer := ""), env)
    }

    /** The leg's state after the callee state machine handles a reply from
        the callee: a reply that re-INVITEs the caller does so (ending both
        legs when that fails); a failure reply tells the callee to
        terminate, forgets it and stops this leg; any other reply changes
        nothing here. */
    function CalleeState(rv: RelayView, r: SipReply, status: CalleeStatus, relayOnly: bool, inviteCseq: nat,
                         s: LegState, env: Env): (t: LegState)
      requires |s.fds| == MaxRelayStreams && |rv.streams| == MaxRelayStreams
      reads this`sipRelayEarlyMediaSdp
      ensures t.recvd == s.recvd && t.relayed == s.relayed && t.cache == s.cache
      ensures |t.fds| == |s.fds|
      ensures s.stopped ==> t.stopped
      ensures !CalleeMoves(r, status, inviteCseq) ==> t == s
    {
      if !CalleeMoves(r, status, inviteCseq) then s
      else if ReinvitesCaller(r, relayOnly) then ReinviteOrEndState(rv, r, s, env)
      else if r.code >= 300 then s.(trace := s.trace + TerminatePost(s.peer, env.postOk), peer := "", stopped := true)
      else s
    }

    /** Re-INVITE the caller with the callee's description; when that
        cannot be sent, end the callee and this leg. */
    method ReinviteOrEnd(r: SipReply, env: Env)
      requires Valid() && role == Caller
      modifies this`dlgCseq, this`trace, this`otherId, this`stopped, otherStreamFds, this`calleeStatus
      ensures Valid()
      ensures State() == ReinviteOrEndState(Relay(), r, old(State()), env)
      ensures calleeStatus == if env.sendOk then old(calleeStatus) else NoCallee
    {
      var res := ReinviteCaller(r, env);
      if res != 0 {
        TerminateOtherLeg(env);
        TerminateLeg(env);
      }
    }

    /** A provisional reply to the initial INVITE makes the callee
        ringing, re-INVITEing the caller with early media when so
        configured. */
    method CalleeRinging(r: SipReply, env: Env)
      requires Valid() && role == Caller && CalleeMoves(r, calleeStatus, inviteReq.cseq) && r.code < 200
      modifies this`dlgCseq, this`trace, this`otherId, this`stopped, otherStreamFds, this`calleeStatus, this`sipRelayOnly
      ensures Valid()
      ensures calleeStatus == Ringing && sipRelayOnly == old(sipRelayOnly)
      ensures State() == CalleeState(Relay(), r, old(calleeStatus), old(sipRelayOnly), inviteReq.cseq, old(State()), env)
    {
      if !sipRelayOnly && sipRelayEarlyMediaSdp && 180 <= r.code <= 183 && r.body != "" {
        ReinviteOrEnd(r, env);
      }
      calleeStatus := Ringing;
      var ignored := OnOtherReply(r);
    }

    /** A 2xx to the initial INVITE connects the callee; a caller not yet
        relaying SIP switches to it and is re-INVITEd with the callee's
        description. */
    method CalleeConnected(r: SipReply, env: Env)
      requires Valid() && role == Caller && CalleeMoves(r, calleeStatus, inviteReq.cseq) && Is2xx(r.code)
      modifies this`dlgCseq, this`trace, this`otherId, this`stopped, otherStreamFds, this`calleeStatus, this`sipRelayOnly
      ensures Valid()
      ensures sipRelayOnly && calleeStatus == (if old(sipRelayOnly) || env.sendOk then Connected else NoCallee)
      ensures State() == CalleeState(Relay(), r, old(calleeStatus), old(sipRelayOnly), inviteReq.cseq, old(State()), env)
    {
      calleeStatus := Connected;
      if !sipRelayOnly {
        sipRelayOnly := true;
        ReinviteOrEnd(r, env);
      }
      var ignored := OnOtherReply(r);
    }

    /** A failure reply to the initial INVITE ends the callee and stops
        this leg. */
    method CalleeFailed(r: SipReply, env: Env)
      requires Valid() && role == Caller && CalleeMoves(r, calleeStatus, inviteReq.cseq) && r.code >= 300
      modifies this`dlgCseq, this`trace, this`otherId, this`stopped, otherStreamFds, this`calleeStatus, this`sipRelayOnly
      ensures Valid()
      ensures calleeStatus == NoCallee && sipRelayOnly == old(sipRelayOnly)
      ensures State() == CalleeState(Relay(), r, old(calleeStatus), old(sipRelayOnly), inviteReq.cseq, old(State()), env)
    {
      TerminateOtherLeg(env);
      var ignored := OnOtherReply(r);
    }

    /** The callee state machine of AmB2BCallerSession::onB2BEvent, for a
        reply that passed the dialog check: only a reply to the initial
        INVITE, while the callee has not answered or is ringing, moves the
        callee state; both legs end when a re-INVITE of the caller cannot
        be sent. The reply is never consumed here. */
    method OnCalleeReply(r: SipReply, env: Env) returns (processed: bool)
      requires Valid() && role == Caller
      modifies this`dlgCseq, this`trace, this`otherId, this`stopped, otherStreamFds, this`calleeStatus, this`sipRelayOnly
      ensures Valid()
      ensures !processed
      ensures calleeStatus == CalleeStatusAfter(r, old(calleeStatus), old(sipRelayOnly), inviteReq.cseq, env)
      ensures sipRelayOnly == RelayOnlyAfter(r, old(calleeStatus), old(sipRelayOnly), inviteReq.cseq)
      ensures State() == CalleeState(Relay(), r, old(calleeStatus), old(sipRelayOnly), inviteReq.cseq, old(State()), env)
    {
      processed := false;
      if (calleeStatus == NoReply || calleeStatus == Ringing) && r.cseq == inviteReq.cseq {
        if r.code < 200 {
          CalleeRinging(r, env);
        } else if r.code < 300 {
          CalleeConnected(r, env);
        } else {
          CalleeFailed(r, env);
        }
      }
    }

    /** A reply from the current callee: the callee state machine, then
        the common handler. */
    method OnReplyFromCallee(ev: B2BEvent, env: Env)
      requires Valid() && role == Caller && ev.SipReplyEv? && FromCurrentCallee(otherId, ev.reply)
      modifies this`recvdReq, this`relayedReq, this`dlgCseq, this`trace, this`establishedContentType,
               this`establishedBody, this`bodyHash, this`otherId, this`stopped, otherStreamFds,
               this`calleeStatus, this`sipRelayOnly
      ensures Valid()
      ensures calleeStatus == CalleeStatusAfter(ev.reply, old(calleeStatus), old(sipRelayOnly), inviteReq.cseq, env)
      ensures sipRelayOnly == RelayOnlyAfter(ev.reply, old(calleeStatus), old(sipRelayOnly), inviteReq.cseq)
      ensures State() == HandledState(Relay(), ev, CalleeState(Relay(), ev.reply, old(calleeStatus), old(sipRelayOnly),
                                                                inviteReq.cseq, old(State()), env),
                                      AnswersAfterCalleeStep(ev.reply, old(calleeStatus), old(sipRelayOnly), inviteReq.cseq, env))
    {
      var after := AnswersAfterCalleeStep(ev.reply, calleeStatus, sipRelayOnly, inviteReq.cseq, env);
      var processed := OnCalleeReply(ev.reply, env);
      BaseOnB2BEvent(ev, after);
    }

    /** AmB2BCallerSession::onB2BEvent: a reply from anyone but the current
        callee is dropped; one from the callee drives the callee state and
        is then handled in common, as is every other event. */
    method CallerOnB2BEvent(ev: B2BEvent, env: Env)
      requires Valid() && role == Caller
      modifies this`recvdReq, this`relayedReq, this`dlgCseq, this`trace, this`establishedContentType,
               this`establishedBody, this`bodyHash, this`otherId, this`stopped, otherStreamFds,
               this`calleeStatus, this`sipRelayOnly
      ensures Valid()
      ensures ev.SipReplyEv? && !FromCurrentCallee(old(otherId), ev.reply) ==>
        State() == old(State()) && calleeStatus == old(calleeStatus) && sipRelayOnly == old(sipRelayOnly)
      ensures ev.SipReplyEv? && FromCurrentCallee(old(otherId), ev.reply) ==>
        && calleeStatus == CalleeStatusAfter(ev.reply, old(calleeStatus), old(sipRelayOnly), inviteReq.cseq, env)
        && sipRelayOnly == RelayOnlyAfter(ev.reply, old(calleeStatus), old(sipRelayOnly), inviteReq.cseq)
      ensures ev.SipReplyEv? && FromCurrentCallee(old(otherId), ev.reply) ==>
        State() == HandledState(Relay(), ev, CalleeState(Relay(), ev.reply, old(calleeStatus), old(sipRelayOnly),
                                                         inviteReq.cseq, old(State()), env),
                                AnswersAfterCalleeStep(ev.reply, old(calleeStatus), old(sipRelayOnly), inviteReq.cseq, env))
      ensures !ev.SipReplyEv? ==>
        && calleeStatus == old(calleeStatus) && sipRelayOnly == old(sipRelayOnly)
        && State() == HandledState(Relay(), ev, old(State()), env)
    {
      if ev.SipReplyEv? {
        if otherId != ev.reply.localTag {
          return;
        }
        OnReplyFromCallee(ev, env);
        return;
      }
      BaseOnB2BEvent(ev, env);
    }

    // ---------------------------------------------------------------
    // The callee leg

    /** The connect event at a callee (the B2BConnectLeg case of
        AmB2BCalleeSession::onB2BEvent): set the remote party and URI,
        record a relayed INVITE under this leg's CSeq, and send the INVITE
        with the caller's description. When sending fails, a 400 goes back
        under the caller's CSeq, the entry is removed again and this leg
        stops; otherwise the description is cached. */
    method CalleeOnConnectLeg(co: B2BEvent, env: Env)
      requires Valid() && role == Callee && co.ConnectLegEv?
      modifies this`remoteParty, this`remoteUri, this`relayedReq, this`dlgCseq, this`trace,
               this`establishedContentType, this`establishedBody, this`bodyHash, this`otherId, this`stopped
      ensures Valid()
      ensures remoteParty == co.remoteParty && remoteUri == co.remoteUri && otherId == old(otherId)
      ensures env.sendOk ==>
        && relayedReq == (if co.relayedInvite then old(relayedReq)[old(dlgCseq) := Transaction(INVITE, co.rCseq, EmptyTicket)]
                          else old(relayedReq))
        && dlgCseq == old(dlgCseq) + 1
      ensures env.sendOk ==>
        trace == old(trace) + [RequestSent(INVITE, co.contentType, OutgoingBody(Relay(), co.contentType, co.body), co.hdrs, old(dlgCseq), true)]
      ensures env.sendOk ==>
        stopped == old(stopped) && Cache() == (if refreshByUpdate then old(Cache()) else Saved(hash, co.contentType, co.body))
      ensures !env.sendOk ==>
        && relayedReq == (if co.relayedInvite then old(relayedReq) - {old(dlgCseq)} else old(relayedReq))
        && dlgCseq == old(dlgCseq)
      ensures !env.sendOk ==>
        trace == old(trace) + [RequestSent(INVITE, co.contentType, OutgoingBody(Relay(), co.contentType, co.body), co.hdrs, old(dlgCseq), false)]
                 + RelayTrace(old(otherId), SipReplyEv(BadRequestReply(co.rCseq, localTag), co.relayedInvite, INVITE), env)
      ensures !env.sendOk ==> stopped && Cache() == old(Cache())
    {
      var r := SendConnectInvite(co, env);
      if r < 0 {
        RejectConnect(co, env);
        return;
      }
      if !refreshByUpdate {
        SaveSessionDescription(co.contentType, co.body);
      }
    }

    /** The sending half of the connect event: take over the caller's
        remote party and URI, record a relayed INVITE under this leg's
        CSeq, and send the INVITE with the caller's description, rewritten
        for the relay. */
    method SendConnectInvite(co: B2BEvent, env: Env) returns (r: int)
      requires Valid() && co.ConnectLegEv?
      modifies this`remoteParty, this`remoteUri, this`relayedReq, this`dlgCseq, this`trace
      ensures Valid()
      ensures remoteParty == co.remoteParty && remoteUri == co.remoteUri
      ensures relayedReq == (if co.relayedInvite then old(relayedReq)[old(dlgCseq) := Transaction(INVITE, co.rCseq, EmptyTicket)]
                             else old(relayedReq))
      ensures dlgCseq == old(dlgCseq) + (if env.sendOk then 1 else 0)
      ensures trace == old(trace) + [RequestSent(INVITE, co.contentType, OutgoingBody(Relay(), co.contentType, co.body), co.hdrs, old(dlgCseq), env.sendOk)]
      ensures r < 0 <==> !env.sendOk
      ensures env.sendOk ==> forall k :: k in relayedReq ==> k < dlgCseq
    {
      remoteParty := co.remoteParty;
      remoteUri := co.remoteUri;
      if co.relayedInvite {
        relayedReq := relayedReq[dlgCseq := Transaction(INVITE, co.rCseq, EmptyTicket)];
      }
      var body := RelayBody(co.contentType, co.body);
      r := SendRequest(INVITE, co.contentType, body, co.hdrs, env);
    }

    /** A callee whose INVITE could not be sent relays a 400 back under the
        caller's CSeq, removes the entry it recorded for a relayed INVITE
        under its unchanged CSeq, and stops. */
    method RejectConnect(co: B2BEvent, env: Env)
      requires Valid() && role == Callee && co.ConnectLegEv?
      modifies this`relayedReq, this`trace, this`stopped
      ensures Valid()
      ensures relayedReq == (if co.relayedInvite then old(relayedReq) - {dlgCseq} else old(relayedReq))
      ensures trace == old(trace) + RelayTrace(otherId, SipReplyEv(BadRequestReply(co.rCseq, localTag), co.relayedInvite, INVITE), env)
      ensures stopped
    {
      var ignored := BaseRelayEvent(SipReplyEv(BadRequestReply(co.rCseq, localTag), co.relayedInvite, INVITE), env);
      if co.relayedInvite {
        relayedReq := relayedReq - {dlgCseq};
      }
      stopped := true;
    }

    /** AmB2BCalleeSession::onB2BEvent: the connect event is the callee's
        own; everything else goes to the common handler. */
    method CalleeOnB2BEvent(ev: B2BEvent, env: Env)
      requires Valid() && role == Callee
      modifies this`remoteParty, this`remoteUri, this`recvdReq, this`relayedReq, this`dlgCseq, this`trace,
               this`establishedContentType, this`establishedBody, this`bodyHash, this`otherId, this`stopped, otherStreamFds
      ensures Valid()
      ensures ev.ConnectLegEv? ==>
        && remoteParty == ev.remoteParty && remoteUri == ev.remoteUri
        && recvdReq == old(recvdReq) && otherId == old(otherId) && otherStreamFds[..] == old(otherStreamFds[..])
      ensures ev.ConnectLegEv? && env.sendOk ==>
        && relayedReq == (if ev.relayedInvite then old(relayedReq)[old(dlgCseq) := Transaction(INVITE, ev.rCseq, EmptyTicket)]
                          else old(relayedReq))
        && dlgCseq == old(dlgCseq) + 1
        && trace == old(trace) + [RequestSent(INVITE, ev.contentType, OutgoingBody(Relay(), ev.contentType, ev.body), ev.hdrs, old(dlgCseq), true)]
        && stopped == old(stopped) && Cache() == (if refreshByUpdate then old(Cache()) else Saved(hash, ev.contentType, ev.body))
      ensures ev.ConnectLegEv? && !env.sendOk ==>
        && relayedReq == (if ev.relayedInvite then old(relayedReq) - {old(dlgCseq)} else old(relayedReq))
        && dlgCseq == old(dlgCseq)
        && trace == old(trace) + [RequestSent(INVITE, ev.contentType, OutgoingBody(Relay(), ev.contentType, ev.body), ev.hdrs, old(dlgCseq), false)]
                    + RelayTrace(old(otherId), SipReplyEv(BadRequestReply(ev.rCseq, localTag), ev.relayedInvite, INVITE), env)
        && stopped && Cache() == old(Cache())
      ensures !ev.ConnectLegEv? ==>
        && remoteParty == old(remoteParty) && remoteUri == old(remoteUri)
        && State() == HandledState(Relay(), ev, old(State()), env)
    {
      if ev.ConnectLegEv? {
        CalleeOnConnectLeg(ev, env);
        return;
      }
      BaseOnB2BEvent(ev, env);
    }
  }
}
