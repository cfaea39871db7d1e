/** SIP requests, replies and transaction descriptors as the back-to-back
    session engine sees them, with the method names, the SDP content type
    and the two header lines the engine writes itself. */
module SipMessages {

  const INVITE: string := "INVITE"
  const ACK: string := "ACK"
  const BYE: string := "BYE"
  const CANCEL: string := "CANCEL"
  const UPDATE: string := "UPDATE"
  const PRACK: string := "PRACK"

  const APPLICATION_SDP: string := "application/sdp"
  const CRLF: string := "\r\n"

  /** The ticket of a transaction that was not created by the transaction
      layer (what a default-constructed ticket stands for). */
  const EmptyTicket: nat := 0

  /** An inbound request. CSeq numbers are below 2^31 (section 8.1.1.5 of
      RFC 3261), so they are naturals here and never wrap in an int key. */
  datatype SipRequest = SipRequest(
    sipMethod: string,
    cseq: nat,
    contentType: string,
    body: string,
    hdrs: string,
    rseq: nat,          // RSeq of the provisional reply a PRACK acknowledges, 0 if none
    rackCseq: nat,      // CSeq number carried in the PRACK's RAck header
    rackMethod: string, // method carried in the PRACK's RAck header
    tt: nat)            // transaction ticket

  datatype SipReply = SipReply(
    code: nat,
    reason: string,
    cseq: nat,
    sipMethod: string,
    contentType: string,
    body: string,
    hdrs: string,
    localTag: string,
    rseq: nat)

  /** What a leg remembers about a request it sent on behalf of its peer. */
  datatype Transaction = Transaction(sipMethod: string, cseq: nat, tt: nat)

  /** A reply built field by field, as the engine does for 491 and 400:
      everything not set explicitly keeps its default (empty) value. */
  function SynthesizedReply(code: nat, reason: string, cseq: nat, localTag: string): (r: SipReply)
    ensures r.code == code && r.cseq == cseq && r.localTag == localTag
    ensures r.body == "" && r.hdrs == "" && r.rseq == 0
  {
    SipReply(code, reason, cseq, "", "", "", "", localTag, 0)
  }

  predicate Is2xx(code: nat) {
    200 <= code < 300
  }

  /** INVITE, UPDATE and ACK are the methods whose bodies carry session
      descriptions. */
  predicate CarriesSdp(sipMethod: string) {
    sipMethod == INVITE || sipMethod == UPDATE || sipMethod == ACK
  }

  function DigitChar(d: nat): char
    requires d < 10
  {
    (48 + d) as char
  }

  /** Decimal rendering of a natural number. */
  function NatToString(n: nat): (s: string)
    ensures |s| >= 1
    ensures forall i :: 0 <= i < |s| ==> '0' <= s[i] <= '9'
    ensures n >= 10 ==> s[0] != '0'
    decreases n
  {
    if n < 10 then [DigitChar(n)] else NatToString(n / 10) + [DigitChar(n % 10)]
  }

  /** The RAck header line of a relayed PRACK (section 7.2 of RFC 3262). */
  function RAckHeader(rseq: nat, cseq: nat, sipMethod: string): string {
    "RAck: " + NatToString(rseq) + " " + NatToString(cseq) + " " + sipMethod + CRLF
  }

  /** The RSeq header line of a relayed reliable provisional reply. */
  function RSeqHeader(rseq: nat): string {
    "RSeq: " + NatToString(rseq) + CRLF
  }
}
