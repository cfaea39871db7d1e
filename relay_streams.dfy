/** The relay stream set and the parts of a session description it works
    on: one relay stream per media line up to a fixed capacity, the remote
    endpoints learned from a description, and the rewriting of a description
    so that its connection addresses and media ports point at this server.
    The SDP text codec is a parameter (parse may fail, print is opaque). */
module RelayStreams {
  import opened Wrappers
  import opened SipMessages

  /** MAX_RELAY_STREAMS. It is defined in AmB2BSession.h, which is not part
      of this model; no proof depends on its value. */
  const MaxRelayStreams: nat := 3

  /** A media line: its own connection address ("" when it has none) and
      its port. */
  datatype Media = Media(conn: string, port: nat)

  /** A parsed description: the session-level connection address and the
      media lines in order. */
  datatype SdpBody = SdpBody(conn: string, media: seq<Media>)

  datatype Endpoint = Endpoint(address: string, port: nat)

  /** One relay stream: the port getLocalPort() yields (None where binding
      fails), the local socket (0 when there is none) and the remote
      endpoint learned from the peer's description. */
  datatype RelayStream = RelayStream(localPort: Option<nat>, localSocket: nat, remote: Option<Endpoint>)

  /** The default description filter of a session: transparent. */
  function FilterSdp(sdp: SdpBody, aToB: bool): (r: SdpBody)
    ensures r == sdp
  {
    sdp
  }

  /** Body filtering of a relayed message: an empty body, a body of another
      content type, or an SDP body that does not parse is passed through;
      otherwise the filtered description is printed back. The second
      component is the parsed description, if there is one. */
  function FilterBody(contentType: string, body: string, parse: string -> Option<SdpBody>,
                      printSdp: SdpBody -> string, aToB: bool): (r: (string, Option<SdpBody>))
    ensures r.1.None? ==> r.0 == body
    ensures r.1.Some? ==> body != "" && contentType == APPLICATION_SDP && r.1 == parse(body) && r.0 == printSdp(r.1.value)
    ensures body != "" && contentType == APPLICATION_SDP ==> r.1 == parse(body)
  {
    if body == "" then (body, None)
    else if contentType == APPLICATION_SDP then
      match parse(body)
      case None => (body, None)
      case Some(sdp) => var f := FilterSdp(sdp, aToB); (printSdp(f), Some(f))
    else (body, None)
  }

  /** The description relay streams learn their remote endpoints from: none
      for an empty or non-SDP body; the already parsed one when it has media
      lines; otherwise a fresh parse of the body. */
  function SdpToLearn(contentType: string, body: string, parsed: Option<SdpBody>,
                      parse: string -> Option<SdpBody>): Option<SdpBody>
  {
    if body == "" || contentType != APPLICATION_SDP then None
    else if parsed.Some? && parsed.value.media != [] then parsed
    else parse(body)
  }

  /** The relay streams after learning remote endpoints from `learned`:
      unchanged when there is nothing to learn; otherwise slot i takes the
      endpoint of media line i for every line that has a slot, and every
      other slot keeps what it had. */
  predicate RemotesLearned(before: seq<RelayStream>, after: seq<RelayStream>, learned: Option<SdpBody>) {
    |after| == |before|
    && match learned
       case None => after == before
       case Some(sdp) =>
         forall i :: 0 <= i < |before| ==>
           after[i] == if i < |sdp.media| && i < MaxRelayStreams then before[i].(remote := Some(RemoteOf(sdp, i))) else before[i]
  }

  /** The remote endpoint of media line i: its own address, or the
      session-level address when it has none. */
  function RemoteOf(sdp: SdpBody, i: nat): Endpoint
    requires i < |sdp.media|
  {
    var m := sdp.media[i];
    Endpoint(if m.conn == "" then sdp.conn else m.conn, m.port)
  }

  /** A connection address as rewritten: a present address becomes the
      advertised address, an absent one stays absent. */
  function Advertised(conn: string, ip: string): string {
    if conn != "" then ip else conn
  }

  /** Media lines rewritten against the relay streams, line i against
      stream i: the address is advertised and the port is the stream's
      local port. Lines beyond the last stream are left as they are. None
      when a stream that is needed has no local port. */
  function RewriteLines(media: seq<Media>, streams: seq<RelayStream>, ip: string): Option<seq<Media>>
  {
    if media == [] then Some([])
    else if streams == [] then Some(media)
    else match streams[0].localPort
      case None => None
      case Some(p) =>
        match RewriteLines(media[1..], streams[1..], ip)
        case None => None
        case Some(rest) => Some([Media(Advertised(media[0].conn, ip), p)] + rest)
  }

  /** What RewriteLines means line by line: it succeeds exactly when every
      line with a stream has a bound port; then it keeps the number of
      lines, puts the stream's port and the advertised address on every
      line that has a stream, and does not touch any other line. */
  lemma {:induction false} RewriteLinesMeaning(media: seq<Media>, streams: seq<RelayStream>, ip: string)
    ensures RewriteLines(media, streams, ip).Some? <==>
      forall i :: 0 <= i < |media| && i < |streams| ==> streams[i].localPort.Some?
    ensures RewriteLines(media, streams, ip).Some? ==>
      var r := RewriteLines(media, streams, ip).value;
      && |r| == |media|
      && (forall i :: 0 <= i < |media| && i < |streams| ==>
            r[i] == Media(Advertised(media[i].conn, ip), streams[i].localPort.value))
      && (forall i :: |streams| <= i < |media| ==> r[i] == media[i])
  {
    if media != [] && streams != [] {
      RewriteLinesMeaning(media[1..], streams[1..], ip);
      if streams[0].localPort.Some? && RewriteLines(media[1..], streams[1..], ip).Some? {
        var rest := RewriteLines(media[1..], streams[1..], ip).value;
        var r := RewriteLines(media, streams, ip).value;
        assert r == [Media(Advertised(media[0].conn, ip), streams[0].localPort.value)] + rest;
        forall i | 1 <= i < |media|
          ensures r[i] == rest[i - 1]
          ensures media[1..][i - 1] == media[i]
        {
        }
      } else if streams[0].localPort.Some? {
        var i :| 0 <= i < |media[1..]| && i < |streams[1..]| && streams[1..][i].localPort.None?;
        assert streams[i + 1].localPort.None?;
      }
    }
  }

  /** The body a relayed message carries when its description is rewritten
      for the relay: None when the body is empty, not SDP, does not parse,
      or a needed relay stream has no local port. */
  function RewrittenDescription(contentType: string, body: string, parse: string -> Option<SdpBody>,
                                printSdp: SdpBody -> string, streams: seq<RelayStream>, ip: string): Option<string>
  {
    if body == "" || contentType != APPLICATION_SDP then None
    else match parse(body)
      case None => None
      case Some(sdp) =>
        match RewriteLines(sdp.media, streams, ip)
        case None => None
        case Some(media) => Some(printSdp(SdpBody(Advertised(sdp.conn, ip), media)))
  }

  /** The sockets released from the RTP receiver when the relay is cleared,
      in the order the first n slots release them: the peer's socket of
      slot i when it is set, then this leg's own socket of slot i. */
  function ReleasedSockets(otherFds: seq<nat>, streams: seq<RelayStream>, n: nat): seq<nat>
    requires n <= |otherFds| && n <= |streams|
  {
    if n == 0 then []
    else
      ReleasedSockets(otherFds, streams, n - 1)
      + (if otherFds[n - 1] != 0 then [otherFds[n - 1]] else [])
      + (if streams[n - 1].localSocket != 0 then [streams[n - 1].localSocket] else [])
  }

  /** The local sockets of a leg's relay streams, slot by slot: what the
      other leg records as its peer's sockets when the two are linked. */
  function LocalSockets(streams: seq<RelayStream>): (r: seq<nat>)
    ensures |r| == |streams|
    ensures forall i :: 0 <= i < |r| ==> r[i] == streams[i].localSocket
  {
    seq(|streams|, i requires 0 <= i < |streams| => streams[i].localSocket)
  }

  /** Clearing the relay of a leg linked to its peer releases every set
      socket of both legs' first n slots. */
  lemma {:induction false} LinkedReleaseCovers(own: seq<RelayStream>, peer: seq<RelayStream>, n: nat)
    requires n <= |own| && n <= |peer|
    ensures forall i :: 0 <= i < n && peer[i].localSocket != 0 ==>
      peer[i].localSocket in ReleasedSockets(LocalSockets(peer), own, n)
    ensures forall i :: 0 <= i < n && own[i].localSocket != 0 ==>
      own[i].localSocket in ReleasedSockets(LocalSockets(peer), own, n)
  {
    if n > 0 {
      LinkedReleaseCovers(own, peer, n - 1);
      var fds := LocalSockets(peer);
      var before := ReleasedSockets(fds, own, n - 1);
      assert ReleasedSockets(fds, own, n) == before
        + (if fds[n - 1] != 0 then [fds[n - 1]] else [])
        + (if own[n - 1].localSocket != 0 then [own[n - 1].localSocket] else []);
      assert forall fd :: fd in before ==> fd in ReleasedSockets(fds, own, n);
    }
  }

  /** ... and nothing else: every socket it releases is set and belongs to
      one of the two legs' first n slots. */
  lemma {:induction false} LinkedReleaseOnly(own: seq<RelayStream>, peer: seq<RelayStream>, n: nat)
    requires n <= |own| && n <= |peer|
    ensures forall fd :: fd in ReleasedSockets(LocalSockets(peer), own, n) ==>
      fd != 0 && exists i :: 0 <= i < n && (fd == peer[i].localSocket || fd == own[i].localSocket)
  {
    if n > 0 {
      LinkedReleaseOnly(own, peer, n - 1);
      var fds := LocalSockets(peer);
      assert ReleasedSockets(fds, own, n) == ReleasedSockets(fds, own, n - 1)
        + (if fds[n - 1] != 0 then [fds[n - 1]] else [])
        + (if own[n - 1].localSocket != 0 then [own[n - 1].localSocket] else []);
    }
  }

  /** Once the peer's sockets are cleared, clearing again releases only this
      leg's own sockets: no peer socket is released twice. */
  lemma {:induction false} ReleaseAfterClear(otherFds: seq<nat>, streams: seq<RelayStream>, n: nat)
    requires n <= |otherFds| && n <= |streams|
    requires forall i :: 0 <= i < |otherFds| ==> otherFds[i] == 0
    ensures forall fd :: fd in ReleasedSockets(otherFds, streams, n) ==>
      exists i :: 0 <= i < n && streams[i].localSocket == fd
  {
    if n > 0 {
      ReleaseAfterClear(otherFds, streams, n - 1);
    }
  }
}
