# SEMS back-to-back session engine, modelled in Dafny

This project models the control logic of SEMS's SIP back-to-back user agent
(B2BUA), `core/AmB2BSession.cpp`. A B2BUA call has two legs:

- the caller leg (`AmB2BCallerSession`) faces the party that sent the
  initial INVITE;
- the callee leg (`AmB2BCalleeSession`) is created by the caller leg and
  places the outgoing call.

Each leg is one session object that handles one event at a time. It relays
SIP requests and replies to the peer leg named by `other_id`. It keeps two
transaction ledgers:

- `recvd_req`: requests this leg received and relayed, by this leg's CSeq;
- `relayed_req`: requests this leg sent for the peer, by this leg's CSeq,
  remembering the method, the peer's CSeq and the transaction ticket.

It also caches the established session description and its hash, and can
relay RTP through a fixed set of relay streams.

## Structure

| file | module | contents |
|---|---|---|
| `wrappers.dfy` | `Wrappers` | `Option` |
| `sip_messages.dfy` | `SipMessages` | requests, replies, transactions, the RAck and RSeq header lines |
| `session_description.dfy` | `SessionDescription` | the hashed region of a body, the `skip_line` loop as written and corrected, the description cache |
| `relay_streams.dfy` | `RelayStreams` | parsed SDP as media lines, body filtering, remote endpoints learned per slot, address/port rewriting, released sockets |
| `transaction_ledger.dfy` | `TransactionLedger` | the two ledgers as maps, the ascending search of `relayed_req`, how every event changes each ledger |
| `b2b_events.dfy` | `B2BEvents` | roles, callee status, events between legs, collaborator answers, effects |
| `b2b_session.dfy` | `B2B` | class `B2BSession`, one leg with its fields and handlers |
| `b2b_scenario.dfy` | `B2BScenario` | two leg objects relaying an INVITE, its 200 and the ACK |

## How it is modelled

- **One class for both legs.** The C++ hierarchy (`AmB2BSession`,
  `AmB2BCallerSession`, `AmB2BCalleeSession`) is one class `B2BSession`
  with a constant `role`.
  - Virtual dispatch becomes a branch on the role: `RelayEvent`,
    `TerminateOtherLeg`.
  - The per-class `onB2BEvent` overrides are the methods
    `BaseOnB2BEvent`, `CallerOnB2BEvent` and `CalleeOnB2BEvent`.
- **Fields are updated in place.** The ledgers, `other_id`,
  `sip_relay_only`, `callee_status` and the description cache are class
  fields. The relay streams and the peer's stream sockets
  (`other_stream_fds`) are arrays of `MAX_RELAY_STREAMS` slots. Every
  method names exactly the fields it may change.
- **Collaborators.** The dialog, the session registry and the RTP receiver
  are outside the model.
  - What they are asked to do is appended to the field `trace`, as a
    sequence of `Effect`s: posts to the peer, requests, replies, ACKs,
    BYEs, released sockets, and hand-offs to the plain-session base class.
  - What they answer during one event is an `Env` value: whether a post
    reaches the peer, whether this leg's UAC INVITE transaction is
    pending, the dialog status, whether a send succeeds, and the id a new
    callee gets.
  - The dialog CSeq `dlgCseq` is used by each request sent and advances
    by one when the send succeeds.
- **Pure collaborators** are constant functions of the object and nothing
  is assumed about them: the hash, the SDP parser (which may fail), the
  SDP printer and the advertised IP address.
- **Leg state.** `State()` collects what the event handlers change (both
  ledgers, the dialog CSeq, the trace, the description cache, `other_id`,
  the stopped flag and the peer sockets) into one `LegState` value, and
  `Relay()` collects the relay configuration they read. Each handler
  states its whole new state as a function of the old one
  (`RequestHandled`, `ReplyHandled`, `HandledState`, `CalleeState`,
  `Terminated`), so a dispatcher's contract is the composition of its
  handlers' functions.
- **Search order.** `relayed_req` is a `std::map`, so the source's searches
  visit keys in ascending order. `FirstMatch` is the smallest matching
  key. `FindByPeerCseq` is the search loop, proved to find it.

Behaviour of the code as written that the model keeps and states:

- The 491 "Request Pending" that a leg relays back for a peer INVITE
  (core/AmB2BSession.cpp:107-117) has an empty local tag. A caller with a
  callee drops every reply whose local tag is not its `other_id`
  (core/AmB2BSession.cpp:730-733), so a 491 relayed by the callee never
  reaches the caller's side (`B2BEvents.PendingReplyFailsCallerCheck`).
  The 400 of a failed callee INVITE carries the callee's tag and passes
  the check (`B2BEvents.BadRequestPassesCallerCheck`).
- A forwarded ACK is inserted into `recvd_req` like any other request
  (core/AmB2BSession.cpp:198-201) and no reply ever removes it. After a
  relayed INVITE / 200 / ACK exchange, the caller's `recvd_req` still
  holds the ACK under the INVITE's CSeq, while the callee's `relayed_req`
  is empty again (`TransactionLedger.InviteOkAckExchange`,
  `B2BScenario.RelayedInviteExchange`).
- When the early-media re-INVITE of the caller cannot be sent
  (core/AmB2BSession.cpp:742-752), both legs are terminated and
  `other_id` becomes empty. `callee_status` is then set to Ringing anyway.
  `B2B.B2BSession.OnCalleeReply` states this outcome.

## Model

| member | source | states |
|---|---|---|
| `SipMessages.SynthesizedReply` | core/AmB2BSession.cpp:111-114 | a reply built field by field has the given code, CSeq and local tag, and an empty body, header block and RSeq |
| `SessionDescription.HashRegion` | core/AmB2BSession.cpp:429-443 | the hashed region is a suffix of the body; for a content type other than SDP it is the whole body |
| `SessionDescription.OriginLinesIgnored` | core/AmB2BSession.cpp:431-441 | for SDP the hashed region is what follows the second line feed, so two bodies that differ only in their version and origin lines have the same hashed region |
| `SessionDescription.SkipLine` | core/AmB2BSession.cpp:434-437 | skipping a line over `body[start..start+len]` keeps `start + len == |body|` and leaves exactly what follows the first line feed (or nothing) |
| `SessionDescription.HashedRange` | core/AmB2BSession.cpp:429-441 | the pointer and length handed to the hash delimit exactly the hashed region |
| `SessionDescription.SizeDec` | core/AmB2BSession.cpp:435 | the size-type post-decrement stays in range and is the predecessor of any positive value |
| `SessionDescription.SkipLineAsWritten` | core/AmB2BSession.cpp:434-437 | with a line feed ahead the macro agrees with `SkipLine`; without one the length wraps to SIZE_MAX and the pointer ends one past the string's end |
| `SessionDescription.SdpHashRangeUnderflow` | core/AmB2BSession.cpp:439-440 | two skips as written over the SDP body "v=0" LF "o=x" end with pointer 8 (past the 7-character body) and length SIZE_MAX |
| `SessionDescription.UpdatedTwiceNoChange` | core/AmB2BSession.cpp:446-471 | offering the same description twice in a row reports no change the second time |
| `SessionDescription.OriginChurnNotDetected` | core/AmB2BSession.cpp:446-471 | after an SDP body is saved, a body differing only in the version and origin lines is not a change |
| `RelayStreams.FilterSdp` | core/AmB2BSession.cpp:641-644 | the default description filter is the identity |
| `RelayStreams.FilterBody` | core/AmB2BSession.cpp:622-639 | an empty, non-SDP or unparsable body is passed through unchanged; a parsed SDP body is replaced by the printed filtered description, and the parse is returned |
| `RelayStreams.RewriteLinesMeaning` | core/AmB2BSession.cpp:280-300 | rewriting succeeds iff every media line with a relay slot has a bound port; then each such line gets the advertised address (if it had one) and the slot's port, the number of lines is kept, and lines beyond the last slot are untouched |
| `RelayStreams.ReleaseAfterClear` | core/AmB2BSession.cpp:677-689 | once the peer's sockets are zeroed, clearing again releases only this leg's own sockets, so no peer socket is removed twice |
| `RelayStreams.LinkedReleaseCovers` | core/AmB2BSession.cpp:658-689 | after a leg records its peer's relay sockets, clearing its relay releases every set socket of both legs |
| `RelayStreams.LinkedReleaseOnly` | core/AmB2BSession.cpp:658-689 | ... and releases nothing else: every released socket is non-zero and is a socket of one of the two legs |
| `TransactionLedger.FirstMatch` | core/AmB2BSession.cpp:561-567 | the ascending search stops at the least key whose peer CSeq matches; with no match, no entry carries that peer CSeq |
| `TransactionLedger.FirstMatchUnique` | core/AmB2BSession.cpp:524-531 | a key that matches with no smaller match is the one the search finds |
| `TransactionLedger.FindByPeerCseq` | core/AmB2BSession.cpp:561-567 | the search loop over `relayed_req` returns the first match in key order, or none |
| `TransactionLedger.RelayedHeaders` | core/AmB2BSession.cpp:521-537 | a PRACK with an RSeq whose RAck CSeq matches a relayed transaction gets an RAck header naming the first such transaction's local CSeq; otherwise the headers are kept |
| `TransactionLedger.RecvdAfterRequest` | core/AmB2BSession.cpp:192-201 | a non-forwarded request leaves `recvd_req` unchanged; a forwarded one adds its CSeq, without overwriting an existing entry, and every old entry is kept |
| `TransactionLedger.RecvdAfterPeerReply` | core/AmB2BSession.cpp:138-158 | a forwarded final reply for a recorded CSeq removes exactly that key; anything else leaves `recvd_req` unchanged; nothing is ever added |
| `TransactionLedger.RelayedAfterRelay` | core/AmB2BSession.cpp:513-586 | a relayed non-ACK is recorded under the dialog CSeq with (method, peer CSeq, ticket), overwriting, and other keys keep their entries; a relayed ACK only removes entries |
| `TransactionLedger.RelayedAfterPeerRequest` | core/AmB2BSession.cpp:107-120 | an unforwarded peer request, or a forwarded INVITE while this leg's INVITE transaction is pending, leaves `relayed_req` unchanged |
| `TransactionLedger.RelayedAfterReply` | core/AmB2BSession.cpp:344-349 | a final reply for a recorded CSeq removes exactly that key, except a 2xx to an INVITE; anything else leaves `relayed_req` unchanged; nothing is added |
| `TransactionLedger.AckRemovesAtMostOne` | core/AmB2BSession.cpp:559-585 | a relayed ACK removes one entry whose peer CSeq is the ACK's CSeq, or, when there is none, changes nothing |
| `TransactionLedger.InviteKeptUntilAck` | core/AmB2BSession.cpp:344-348 | an INVITE entry survives its 2xx and is then removed by the ACK with the same peer CSeq |
| `TransactionLedger.ReplyRemovesExactlyItsEntry` | core/AmB2BSession.cpp:344-349 | a provisional reply removes nothing; a non-2xx final reply, or any final reply to a non-INVITE, removes exactly its key |
| `TransactionLedger.InviteOkAckExchange` | core/AmB2BSession.cpp:138-158 | after INVITE, 200 and ACK, the callee's `relayed_req` is empty again and the caller's `recvd_req` holds the ACK under the INVITE's CSeq |
| `B2BEvents.PendingReplyFailsCallerCheck` | core/AmB2BSession.cpp:730-733 | the synthesized 491 never passes a caller's dialog check while the caller has a callee |
| `B2BEvents.BadRequestPassesCallerCheck` | core/AmB2BSession.cpp:966-972 | the 400 of a failed callee INVITE carries the callee's tag and passes the caller's dialog check |
| `B2B.B2BSession.CallerLeg` | core/AmB2BSession.cpp:41-48 | a new caller relays SIP only, is transparent, has no callee, no RTP relay, empty ledgers and zeroed peer sockets |
| `B2B.B2BSession.CalleeLeg` | core/AmB2BSession.cpp:922-927 | a new callee is linked to its caller's tag, takes the caller's B2B mode, relays SIP only, has empty ledgers and zeroed peer sockets |
| `B2B.B2BSession.RelayTarget` | core/AmB2BSession.cpp:787-808 | an event goes to the existing peer; with no peer, only a caller creating a callee (for a forwarded SIP event or a connect event) has somewhere to post to |
| `B2B.B2BSession.RelayTrace` | core/AmB2BSession.cpp:787-808 | relaying hands over at most a callee creation and one post; with a peer, exactly one post to it |
| `B2B.B2BSession.BaseRelayEvent` | core/AmB2BSession.cpp:367-380 | with no peer the event is dropped and 0 is returned; otherwise it is posted and the result is -1 iff the post failed |
| `B2B.B2BSession.CreateCalleeSession` | core/AmB2BSession.cpp:856-895 | the new callee's id becomes `other_id`, which is then non-empty |
| `B2B.B2BSession.RelayEvent` | core/AmB2BSession.cpp:787-808 | the new `other_id` is the relay target and the trace grows by the relay trace; -1 only when there was a peer and the post failed |
| `B2B.B2BSession.BaseTerminateOtherLeg` | core/AmB2BSession.cpp:408-414 | `other_id` ends empty whatever the post did; a terminate event is posted iff there was a peer |
| `B2B.B2BSession.TerminateOtherLeg` | core/AmB2BSession.cpp:716-720 | as the base, and a caller also resets its callee status to none |
| `B2B.B2BSession.ClearRtpReceiverRelay` | core/AmB2BSession.cpp:677-689 | every slot of `other_stream_fds` is zero afterwards, and the sockets released are the set peer and own sockets of every slot, in slot order |
| `B2B.B2BSession.TerminatedFds` | core/AmB2BSession.cpp:677-689 | terminating zeroes every peer socket when RTP relay is on and keeps them all otherwise |
| `B2B.B2BSession.Terminated` | core/AmB2BSession.cpp:396-406 | a terminated leg is stopped and keeps its ledgers, CSeq, cache and peer |
| `B2B.B2BSession.SetSipRelayOnly` | core/AmB2BSession.cpp:68-70 | the flag is set to the given value |
| `B2B.B2BSession.SetSipRelayEarlyMediaSdp` | core/AmB2BSession.cpp:706-709 | the early-media flag is set to the given value |
| `B2B.B2BSession.ClearOther` | core/AmB2BSession.cpp:76-84 | `other_id` becomes empty |
| `B2B.B2BSession.EnableRtpRelay` | core/AmB2BSession.cpp:646-650 | RTP relay is on afterwards |
| `B2B.B2BSession.DisableRtpRelay` | core/AmB2BSession.cpp:652-656 | RTP relay is off afterwards |
| `B2B.B2BSession.SetupRelayStreams` | core/AmB2BSession.cpp:658-675 | with RTP relay on and another leg given, slot i of `other_stream_fds` becomes that leg's relay socket i; otherwise the peer sockets are unchanged |
| `B2B.B2BSession.InitializeRtpRelay` | core/AmB2BSession.cpp:902-914 | when the caller relays RTP, the callee relays too and each leg's peer sockets are the other's relay sockets; without a callee or RTP relay nothing changes |
| `B2B.B2BSession.TerminateLeg` | core/AmB2BSession.cpp:396-406 | the leg's new state is `Terminated` of the old one: stopped, the relay cleared iff RTP relay is on, a BYE iff the dialog is pending or connected, nothing else changed |
| `B2B.B2BSession.UpdateRelayStreams` | core/AmB2BSession.cpp:227-259 | slot i learns the remote endpoint of media line i (its own address or the session address) for every line below MAX_RELAY_STREAMS; other slots, and all slots when there is nothing to learn, are unchanged |
| `B2B.B2BSession.ReplaceConnectionAddress` | core/AmB2BSession.cpp:261-309 | it succeeds iff the body is a parsable SDP body and every media line with a slot has a bound port, and then returns the rewritten description |
| `B2B.B2BSession.RelayBody` | core/AmB2BSession.cpp:539-547 | a message carrying SDP goes out with the rewritten body when RTP relay is on and the rewrite succeeds, otherwise with its own body |
| `B2B.B2BSession.SaveSessionDescription` | core/AmB2BSession.cpp:422-444 | the cache holds the description and the hash of its hashed region |
| `B2B.B2BSession.UpdateSessionDescription` | core/AmB2BSession.cpp:446-471 | it reports a change iff the new hash differs, only then replaces type and body, and always ends with the new description's hash |
| `B2B.B2BSession.SendRequest` | core/AmB2BSession.cpp:549 | a request goes out with the current dialog CSeq, which advances iff sending succeeds |
| `B2B.B2BSession.SendEstablishedReInvite` | core/AmB2BSession.cpp:473-490 | without a cached description it returns -1 and sends nothing; otherwise it re-INVITEs with the cached description, rewritten for the relay |
| `B2B.B2BSession.Refresh` | core/AmB2BSession.cpp:492-511 | nothing unless connected; a plain session refresh without a peer or with UPDATE refreshes; otherwise a re-INVITE unless this leg's INVITE transaction is pending |
| `B2B.B2BSession.RelaySipRequest` | core/AmB2BSession.cpp:513-586 | `relayed_req`, the dialog CSeq, the request or ACK sent and the cached description all change as the ledger and trace functions say; after a sent non-ACK every recorded CSeq is below the dialog CSeq |
| `B2B.B2BSession.RelayNewRequest` | core/AmB2BSession.cpp:515-558 | a non-ACK is recorded under the dialog CSeq, sent with the translated RAck and rewritten body, and an INVITE or UPDATE body is cached unless refreshes use UPDATE; once sent, every recorded CSeq is below the dialog CSeq |
| `B2B.B2BSession.RelayAck` | core/AmB2BSession.cpp:559-585 | an ACK acknowledges the first relayed transaction with its CSeq, which is removed; an ACK body for an INVITE is cached; without a match nothing changes |
| `B2B.B2BSession.RelaySipReply` | core/AmB2BSession.cpp:588-620 | the peer's reply goes out with an RSeq header for a reliable provisional and a rewritten body for INVITE, UPDATE and ACK; its body is cached for INVITE and UPDATE |
| `B2B.B2BSession.OnSipRequest` | core/AmB2BSession.cpp:190-224 | `recvd_req` changes as `RecvdAfterRequest` with forwarding iff relay-only and not BYE or CANCEL; the filtered request is posted with that flag and the relay streams learn its description |
| `B2B.B2BSession.OnSipReply` | core/AmB2BSession.cpp:311-354 | a reply other than 100 to a relayed request is posted under the peer's CSeq and method, and `relayed_req` changes as `RelayedAfterReply`; any other reply is handled locally and posted unforwarded |
| `B2B.B2BSession.OnInvite2xx` | core/AmB2BSession.cpp:356-365 | a 2xx to an INVITE relayed for the peer is not acknowledged here; any other is handed to the plain session |
| `B2B.B2BSession.OnOtherBye` | core/AmB2BSession.cpp:382-386 | the peer's BYE or CANCEL terminates this leg: the new state is `Terminated` of the old one |
| `B2B.B2BSession.OnOtherReply` | core/AmB2BSession.cpp:388-394 | a failure reply stops the leg and changes nothing else; the reply is never consumed |
| `B2B.B2BSession.OnB2BSipRequest` | core/AmB2BSession.cpp:102-127 | the whole leg state after a peer request is `RequestHandled` of the old one |
| `B2B.B2BSession.FollowPeerSession` | core/AmB2BSession.cpp:159-177 | the whole leg state after an unforwarded peer reply is `PeerSessionFollowed` of the old one |
| `B2B.B2BSession.OnB2BSipReply` | core/AmB2BSession.cpp:129-179 | the whole leg state after a peer reply is `ReplyHandled` of the old one |
| `B2B.B2BSession.AdoptPeerSession` | core/AmB2BSession.cpp:162-176 | the cache takes the reply's description iff its hash differs; a re-INVITE with it goes out, advancing the CSeq iff sent, exactly when it changed, no INVITE transaction is pending and it has a content type; otherwise nothing is sent |
| `B2B.B2BSession.RelayRecordedReply` | core/AmB2BSession.cpp:138-154 | the whole leg state after a forwarded reply for a recorded CSeq is `ForwardedReplyHandled` of the old one |
| `B2B.B2BSession.RequestHandled` | core/AmB2BSession.cpp:102-127 | `recvd_req` is untouched, `relayed_req` changes as `RelayedAfterPeerRequest`, the leg stops iff it was stopped or the request is an unforwarded BYE or CANCEL |
| `B2B.B2BSession.ForwardedReplyHandled` | core/AmB2BSession.cpp:138-158 | `recvd_req` changes as `RecvdAfterPeerReply`; `relayed_req`, the CSeq and the peer are kept; a stopped leg stays stopped |
| `B2B.B2BSession.PeerSessionFollowed` | core/AmB2BSession.cpp:159-177 | both ledgers, the peer, the stopped flag and the peer sockets are kept |
| `B2B.B2BSession.ReplyHandled` | core/AmB2BSession.cpp:129-179 | `recvd_req` changes as `RecvdAfterPeerReply`; `relayed_req` and the peer are kept; a stopped leg stays stopped |
| `B2B.B2BSession.HandledState` | core/AmB2BSession.cpp:98-188 | a stopped leg stays stopped; only a reply changes `recvd_req` and only a request changes `relayed_req` |
| `B2B.B2BSession.HandledKeepsCseqBound` | core/AmB2BSession.cpp:98-188 | every CSeq recorded in `relayed_req` stays at most the dialog CSeq, and below it once a relayed non-ACK was sent |
| `B2B.B2BSession.BaseOnB2BEvent` | core/AmB2BSession.cpp:98-188 | the whole leg state after any event is `HandledState` of the old one |
| `B2B.B2BSession.OnSessionStart` | core/AmB2BSession.cpp:810-814 | the caller keeps the initial INVITE and hands the start to the plain session |
| `B2B.B2BSession.ReinviteCaller` | core/AmB2BSession.cpp:849-854 | the caller is re-INVITEd with the callee's description and no extra headers; the result is non-zero iff sending failed |
| `B2B.B2BSession.ConnectCallee` | core/AmB2BSession.cpp:816-847 | an existing callee is terminated first, a relayed INVITE is recorded in `recvd_req` and switches on SIP relay, the connect event is posted to a (possibly new) callee, and the callee status ends NoReply |
| `B2B.B2BSession.DropCallee` | core/AmB2BSession.cpp:820-821 | a callee in any state but none is told to terminate and forgotten; the status ends none |
| `B2B.B2BSession.PrepareInvite` | core/AmB2BSession.cpp:823-835 | a relayed INVITE is recorded in `recvd_req` without overwriting and switches on SIP relay; in SDP-filter mode the INVITE body is filtered |
| `B2B.B2BSession.ReinviteOrEndState` | core/AmB2BSession.cpp:744-750 | the re-INVITE goes out with the dialog CSeq; the leg stops iff it was stopped or sending failed; the ledgers and cache are kept |
| `B2B.B2BSession.CalleeState` | core/AmB2BSession.cpp:737-773 | a reply that does not move the callee state changes nothing; none changes the ledgers or cache; a stopped leg stays stopped |
| `B2B.B2BSession.ReinviteOrEnd` | core/AmB2BSession.cpp:744-750 | the whole leg state is `ReinviteOrEndState` of the old one; the callee is dropped iff sending failed |
| `B2B.B2BSession.CalleeRinging` | core/AmB2BSession.cpp:741-752 | the status ends Ringing whatever the early-media re-INVITE did, and the leg state is `CalleeState` of the old one |
| `B2B.B2BSession.CalleeConnected` | core/AmB2BSession.cpp:753-764 | SIP relay is on afterwards; the status is Connected unless the caller re-INVITE could not be sent, and the leg state is `CalleeState` of the old one |
| `B2B.B2BSession.CalleeFailed` | core/AmB2BSession.cpp:765-772 | the status ends none, and the leg state is `CalleeState` of the old one |
| `B2B.B2BSession.OnCalleeReply` | core/AmB2BSession.cpp:737-773 | the callee status, the SIP-relay flag and the whole leg state are `CalleeStatusAfter`, `RelayOnlyAfter` and `CalleeState` of the old ones |
| `B2B.B2BSession.AnswersAfterCalleeStep` | core/AmB2BSession.cpp:744-760 | after the callee step the INVITE transaction is pending iff it already was or a re-INVITE of the caller was sent; the other answers are unchanged |
| `B2B.B2BSession.OnReplyFromCallee` | core/AmB2BSession.cpp:736-785 | the leg state is `HandledState` applied to `CalleeState` of the old one, with the INVITE transaction pending for the common handler once the callee step sent a re-INVITE; the callee status is `CalleeStatusAfter` |
| `B2B.B2BSession.CallerOnB2BEvent` | core/AmB2BSession.cpp:722-785 | a reply whose local tag is not `other_id` changes nothing; a reply from the callee gives `HandledState` after `CalleeState`, under `AnswersAfterCalleeStep`; any other event gives `HandledState` with the callee status kept |
| `B2B.B2BSession.SendConnectInvite` | core/AmB2BSession.cpp:945-964 | the callee takes over remote party and URI, records a relayed INVITE under its dialog CSeq and sends the INVITE with the rewritten description; once sent, every recorded CSeq is below the dialog CSeq |
| `B2B.B2BSession.RejectConnect` | core/AmB2BSession.cpp:962-979 | after a failed send a 400 is relayed back under the caller's CSeq, the recorded entry is removed and the leg stops |
| `B2B.B2BSession.CalleeOnConnectLeg` | core/AmB2BSession.cpp:934-985 | on success the INVITE entry stays recorded and the description is cached unless refreshes use UPDATE; on failure the 400 is relayed, the entry rolled back and the leg stopped |
| `B2B.B2BSession.CalleeOnB2BEvent` | core/AmB2BSession.cpp:932-988 | the connect event is handled as `CalleeOnConnectLeg` says; every other event gives `HandledState`, with remote party and URI kept |
| `B2BScenario.RequestAtFreshCaller` | core/AmB2BSession.cpp:190-224 | a caller in SIP relay mode without a callee records a forwarded request and creates its callee |
| `B2BScenario.RequestAtLinkedCaller` | core/AmB2BSession.cpp:190-224 | a linked caller records a forwarded request and keeps its peer |
| `B2BScenario.RequestAtCallee` | core/AmB2BSession.cpp:102-127 | a callee relays a forwarded request and records it in `relayed_req` |
| `B2BScenario.ReplyAtCallee` | core/AmB2BSession.cpp:311-354 | the callee's `relayed_req` changes as `RelayedAfterReply` and it keeps its peer |
| `B2BScenario.ReplyAtCaller` | core/AmB2BSession.cpp:722-785 | the caller's `recvd_req` changes as a forwarded peer reply says |
| `B2BScenario.PeerByeWithRelay` | core/AmB2BSession.cpp:121-125 | a leg relaying RTP that receives the peer's unforwarded BYE stops, zeroes every peer socket, releases its relay and says BYE |
| `B2BScenario.EarlyMediaReinviteFails` | core/AmB2BSession.cpp:741-753 | a caller that cannot send the early-media re-INVITE posts a terminate to the callee, says BYE, stops, forgets the callee and is still left Ringing |
| `B2BScenario.CalleeOkReinvitesOnce` | core/AmB2BSession.cpp:753-764 | a caller not yet relaying SIP only that gets its callee's 200 with a new description re-INVITEs its side exactly once: the CSeq advances by one and the description is cached |
| `B2BScenario.RelayedInviteExchange` | core/AmB2BSession.cpp:513-586 | two legs relaying INVITE, 200 and ACK end linked to each other, the callee with an empty `relayed_req` and a CSeq advanced once, the caller holding the ACK in `recvd_req` |

## Left out

- MAX_RELAY_STREAMS is defined in AmB2BSession.h, which is not part of this
  model. The model uses 3, and no proof depends on the value.
- `body_hash` is not initialised by the constructors shown. The model
  starts it at 0.
- `updateRefreshMethod` and the header parsing behind it are not part of
  this model. `refresh_method` is the field `refreshByUpdate`, which no
  handler writes.
- The plain-session base class (`AmSession::onSipRequest`, `onSipReply`,
  `onInvite2xx`, `refresh`, `onSessionStart`) is not part of this model.
  Calls into it are recorded as the `Local*` effects. `AmSession::refresh`
  is recorded without a CSeq change.
- The dialog (`sendRequest`, `reinvite`, `reply`, `send_200_ack`, `bye`,
  `getStatus`, `getUACInvTransPending`) is represented by the `Env`
  answers and the trace. Serialisation and retransmission are not
  modelled.
- SDP parsing and printing are uninterpreted functions. A parsed
  description is reduced to its connection address and its media lines'
  addresses and ports.
- `hashlittle` is an uninterpreted function. Nothing is claimed about
  different bodies giving different hashes.
- Inside `setupRelayStreams` and `initializeRTPRelay`, the stream-level
  plumbing is not modelled: `setRelayStream`, `setLocalIP`, the streams'
  own `enableRtpRelay`, and the port binding done by `getLocalPort`. These
  are RTP socket operations. `getLocalSocket` is read as the slot's
  current socket; the socket it may open is not modelled.
- CreateCalleeSession: does not run `initializeRTPRelay`
  (core/AmB2BSession.cpp:885), because it does not model the new callee as
  an object: the callee appears only as the id `other_id` takes. So a
  caller's peer sockets stay as they were when it creates its callee, and
  a later `TerminateLeg` releases only the caller's own sockets, where the
  source also releases the callee's. `InitializeRtpRelay` models the
  linking on two leg objects and must be called explicitly.
- The relay streams' ports and sockets are given to the constructors,
  since the binding that produces them is not modelled.
- The registry (`postEvent`, `addSession`, `getNewId`), the start of the
  new callee session, and `newCalleeSession` returning NULL are not
  modelled. A created callee always gets a non-empty id from `Env`.
- `process()`, `onSessionTimeout`, the destructors and the
  `dynamic_cast` checks are not modelled. The checks cannot fail on an
  event datatype.
- Logging and monitoring are not modelled.
- Each leg is a sequential object. Concurrency between legs is not
  modelled.
- CSeq numbers and ledger keys are unbounded naturals. In the source
  `dlg.cseq` is an unsigned int and the ledgers are keyed by int; section
  8.1.1.5 of RFC 3261 keeps a CSeq below 2^31, so neither width is reached
  by a conforming dialog, and wrap-around is not modelled.
- The dialog's answers (`Env`) are fixed for one event. The one exception
  is the INVITE transaction a re-INVITE of the caller opens, which the
  common handler after the callee step sees as pending.
- The post outcome is one boolean per event. Separate posts within one
  event that the registry might answer differently are not distinguished.

## Findings

| source | as written | input that shows it | evidently intended | confidence | as-written member | corrected member |
|---|---|---|---|---|---|---|
| core/AmB2BSession.cpp:434-437 | `skip_line` tests and post-decrements the `size_t` length even when it is already 0, then steps the pointer once more | the SDP body "v=0" LF "o=x" (one line feed): the second skip ends with pointer 8, one past the terminator, and length SIZE_MAX, which are then handed to the hash | skipping a line never runs past the end: the length stops at 0 and the pointer at the body's end | not executed | `SessionDescription.SkipLineAsWritten`, `SessionDescription.SdpHashRangeUnderflow` | `SessionDescription.SkipLine` |
