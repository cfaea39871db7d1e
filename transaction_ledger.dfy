/** The two transaction ledgers of a leg and how each event changes them.
    recvd_req maps this leg's CSeq to the request it received and relayed
    to the peer; relayed_req maps the CSeq of a request this leg sent on the
    peer's behalf to {method, peer CSeq, ticket}. Both are std::maps, so a
    search over relayed_req visits keys in ascending order. */
module TransactionLedger {
  import opened Wrappers
  import opened SipMessages

  type RecvdLedger = map<nat, SipRequest>
  type RelayedLedger = map<nat, Transaction>

  /** The least element of a non-empty finite set. */
  ghost function MinOf(s: set<nat>): (m: nat)
    requires s != {}
    ensures m in s && forall x :: x in s ==> m <= x
  {
    var x :| x in s;
    if s == {x} then
      assert forall y :: y in s ==> y == x;
      x
    else
      var y := MinOf(s - {x});
      assert forall z :: z in s ==> z == x || z in s - {x};
      if x <= y then x else y
  }

  /** k is the first key, in ascending order, whose entry carries the peer
      CSeq `peer`. */
  ghost predicate IsFirstMatch(m: RelayedLedger, peer: nat, k: nat) {
    && k in m
    && m[k].cseq == peer
    && forall j :: j in m && j < k ==> m[j].cseq != peer
  }

  /** The entry an ascending search for peer CSeq `peer` stops at. */
  ghost function FirstMatch(m: RelayedLedger, peer: nat): (r: Option<nat>)
    ensures r.Some? ==> IsFirstMatch(m, peer, r.value)
    ensures r.None? ==> forall k :: k in m ==> m[k].cseq != peer
  {
    var matches := set k | k in m && m[k].cseq == peer;
    if matches == {} then
      assert forall k :: k in m && m[k].cseq == peer ==> k in matches;
      None
    else
      var least := MinOf(matches);
      assert forall j :: j in m && m[j].cseq == peer ==> j in matches;
      Some(least)
  }

  /** There is only one first match. */
  lemma FirstMatchUnique(m: RelayedLedger, peer: nat, k: nat)
    requires IsFirstMatch(m, peer, k)
    ensures FirstMatch(m, peer) == Some(k)
  {
    assert m[k].cseq == peer;
  }

  /** The search loops of relaySip: walk relayed_req in ascending key order
      and stop at the first entry whose peer CSeq is `peer`. */
  method FindByPeerCseq(m: RelayedLedger, peer: nat) returns (found: Option<nat>)
    ensures found == FirstMatch(m, peer)
  {
    var rest := m.Keys;
    while rest != {}
      invariant rest <= m.Keys
      invariant forall k :: k in m && k !in rest ==> m[k].cseq != peer
      invariant forall k, j :: k in m && k !in rest && j in rest ==> k < j
      decreases |rest|
    {
      ghost var least := MinOf(rest);
      var k :| k in rest && forall j :: j in rest ==> k <= j;
      if m[k].cseq == peer {
        FirstMatchUnique(m, peer, k);
        return Some(k);
      }
      rest := rest - {k};
    }
    return None;
  }

  /** The headers a relayed request goes out with: a PRACK with an RSeq gets
      an RAck header naming the first relayed transaction whose peer CSeq is
      the PRACK's RAck CSeq, translated to this leg's CSeq; without such a
      transaction, or for any other request, the headers are kept. */
  ghost function RelayedHeaders(req: SipRequest, relayed: RelayedLedger): (hdrs: string)
    ensures req.sipMethod == PRACK && req.rseq != 0 && (exists k :: k in relayed && relayed[k].cseq == req.rackCseq) ==>
      exists k :: IsFirstMatch(relayed, req.rackCseq, k) && hdrs == req.hdrs + RAckHeader(req.rseq, k, req.rackMethod)
    ensures !(req.sipMethod == PRACK && req.rseq != 0) || (forall k :: k in relayed ==> relayed[k].cseq != req.rackCseq) ==>
      hdrs == req.hdrs
  {
    if req.sipMethod == PRACK && req.rseq != 0 then
      match FirstMatch(relayed, req.rackCseq)
      case None => req.hdrs
      case Some(k) => req.hdrs + RAckHeader(req.rseq, k, req.rackMethod)
    else req.hdrs
  }

  /** recvd_req after this leg receives a request: a forwarded request is
      recorded under its CSeq unless an entry with that CSeq is already
      there (map::insert does not overwrite). */
  function RecvdAfterRequest(recvd: RecvdLedger, req: SipRequest, fwd: bool): (r: RecvdLedger)
    ensures !fwd ==> r == recvd
    ensures fwd ==> r.Keys == recvd.Keys + {req.cseq}
    ensures fwd ==> r[req.cseq] == if req.cseq in recvd then recvd[req.cseq] else req
    ensures forall k :: k in recvd ==> k in r && r[k] == recvd[k]
  {
    if fwd && req.cseq !in recvd then recvd[req.cseq := req] else recvd
  }

  /** recvd_req after the peer hands over a reply: a forwarded final reply
      for a recorded CSeq removes that entry. */
  function RecvdAfterPeerReply(recvd: RecvdLedger, reply: SipReply, fwd: bool): (r: RecvdLedger)
    ensures fwd && reply.cseq in recvd && reply.code >= 200 ==> r.Keys == recvd.Keys - {reply.cseq}
    ensures !(fwd && reply.cseq in recvd && reply.code >= 200) ==> r == recvd
    ensures forall k :: k in r ==> k in recvd && r[k] == recvd[k]
  {
    if fwd && reply.cseq in recvd && reply.code >= 200 then recvd - {reply.cseq} else recvd
  }

  /** relayed_req after relaySip sends a request with this leg's CSeq
      `dlgCseq`: a non-ACK request is recorded under dlgCseq (overwriting);
      an ACK removes the first entry for its CSeq, if any. */
  ghost function RelayedAfterRelay(relayed: RelayedLedger, dlgCseq: nat, req: SipRequest): (r: RelayedLedger)
    ensures req.sipMethod != ACK ==>
      && r.Keys == relayed.Keys + {dlgCseq}
      && r[dlgCseq] == Transaction(req.sipMethod, req.cseq, req.tt)
      && (forall k :: k in relayed && k != dlgCseq ==> r[k] == relayed[k])
    ensures req.sipMethod == ACK ==> forall k :: k in r ==> k in relayed && r[k] == relayed[k]
  {
    if req.sipMethod != ACK then relayed[dlgCseq := Transaction(req.sipMethod, req.cseq, req.tt)]
    else match FirstMatch(relayed, req.cseq)
      case None => relayed
      case Some(k) => relayed - {k}
  }

  /** relayed_req after the peer hands over a request: only a forwarded
      request is relayed, and an INVITE is not relayed while this leg's own
      INVITE transaction is pending (it is answered with 491 instead). */
  ghost function RelayedAfterPeerRequest(relayed: RelayedLedger, dlgCseq: nat, req: SipRequest,
                                         fwd: bool, invPending: bool): (r: RelayedLedger)
    ensures !fwd || (req.sipMethod == INVITE && invPending) ==> r == relayed
  {
    if fwd && !(req.sipMethod == INVITE && invPending) then RelayedAfterRelay(relayed, dlgCseq, req)
    else relayed
  }

  /** relayed_req after this leg receives a reply: a final reply for a
      recorded CSeq removes the entry, except a 2xx to an INVITE, whose
      entry waits for the ACK. */
  function RelayedAfterReply(relayed: RelayedLedger, reply: SipReply): (r: RelayedLedger)
    ensures reply.cseq in relayed && reply.code >= 200 && !(Is2xx(reply.code) && relayed[reply.cseq].sipMethod == INVITE) ==>
      r.Keys == relayed.Keys - {reply.cseq}
    ensures reply.cseq !in relayed || reply.code < 200 || (Is2xx(reply.code) && relayed[reply.cseq].sipMethod == INVITE) ==>
      r == relayed
    ensures forall k :: k in r ==> k in relayed && r[k] == relayed[k]
  {
    if reply.cseq in relayed && reply.code >= 200
       && !(reply.code < 300 && relayed[reply.cseq].sipMethod == INVITE)
    then relayed - {reply.cseq}
    else relayed
  }

  /** A relayed ACK removes at most one entry, one whose peer CSeq is the
      ACK's CSeq; without such an entry nothing changes. */
  lemma AckRemovesAtMostOne(relayed: RelayedLedger, dlgCseq: nat, ack: SipRequest)
    requires ack.sipMethod == ACK
    ensures var after := RelayedAfterRelay(relayed, dlgCseq, ack);
      || (after == relayed && forall k :: k in relayed ==> relayed[k].cseq != ack.cseq)
      || exists k :: k in relayed && relayed[k].cseq == ack.cseq && after == relayed - {k}
  {
    var r := FirstMatch(relayed, ack.cseq);
    if r.Some? {
      assert relayed[r.value].cseq == ack.cseq;
    }
  }

  /** An INVITE entry survives its 2xx and is removed by the ACK for the
      same peer CSeq, as long as no other entry carries that peer CSeq. */
  lemma InviteKeptUntilAck(relayed: RelayedLedger, k: nat, ok: SipReply, dlgCseq: nat, ack: SipRequest)
    requires k in relayed && relayed[k].sipMethod == INVITE
    requires forall j :: j in relayed && j != k ==> relayed[j].cseq != relayed[k].cseq
    requires ok.cseq == k && Is2xx(ok.code)
    requires ack.sipMethod == ACK && ack.cseq == relayed[k].cseq
    ensures RelayedAfterReply(relayed, ok) == relayed
    ensures RelayedAfterRelay(RelayedAfterReply(relayed, ok), dlgCseq, ack) == relayed - {k}
  {
    FirstMatchUnique(relayed, ack.cseq, k);
  }

  /** A non-2xx final reply to any request, or any final reply to a request
      other than INVITE, removes exactly its entry; a provisional reply
      removes nothing. */
  lemma ReplyRemovesExactlyItsEntry(relayed: RelayedLedger, reply: SipReply)
    requires reply.cseq in relayed
    ensures reply.code < 200 ==> RelayedAfterReply(relayed, reply) == relayed
    ensures reply.code >= 300 || (reply.code >= 200 && relayed[reply.cseq].sipMethod != INVITE) ==>
      RelayedAfterReply(relayed, reply).Keys == relayed.Keys - {reply.cseq}
  {
  }

  /** The INVITE / 200 / ACK exchange through both legs. The caller records
      the INVITE (CSeq a) and the callee relays it under its own CSeq d;
      the callee keeps its entry through the 200 and drops it on the ACK,
      ending empty. The caller drops the INVITE on the relayed 200 but then
      records the forwarded ACK under the same CSeq, and no reply ever
      removes that entry. */
  lemma InviteOkAckExchange(inv: SipRequest, ack: SipRequest, okAtCallee: SipReply, okAtCaller: SipReply, d: nat)
    requires inv.sipMethod == INVITE && ack.sipMethod == ACK && ack.cseq == inv.cseq
    requires okAtCallee.cseq == d && okAtCallee.code == 200
    requires okAtCaller.cseq == inv.cseq && okAtCaller.code == 200
    ensures var r1 := RecvdAfterRequest(map[], inv, true);
      var r2 := RecvdAfterPeerReply(r1, okAtCaller, true);
      var r3 := RecvdAfterRequest(r2, ack, true);
      r1 == map[inv.cseq := inv] && r2 == map[] && r3 == map[inv.cseq := ack]
    ensures var l1 := RelayedAfterPeerRequest(map[], d, inv, true, false);
      var l2 := RelayedAfterReply(l1, okAtCallee);
      var l3 := RelayedAfterPeerRequest(l2, d + 1, ack, true, false);
      l1 == l2 == map[d := Transaction(INVITE, inv.cseq, inv.tt)] && l3 == map[]
  {
    var l1 := map[d := Transaction(INVITE, inv.cseq, inv.tt)];
    assert RelayedAfterReply(l1, okAtCallee) == l1;
    FirstMatchUnique(l1, ack.cseq, d);
    assert l1 - {d} == map[];
    assert map[inv.cseq := inv] - {inv.cseq} == map[];
  }
}
