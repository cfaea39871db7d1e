/** The session-description cache: which part of a body is hashed, how a
    saved description is compared with a new one, and the line skipping
    that drops the version and origin lines of an SDP body (section 5 of
    RFC 4566) before hashing. The hash itself is a parameter: nothing is
    assumed about it. */
module SessionDescription {
  import opened SipMessages

  newtype uint32 = x: int | 0 <= x < 0x1_0000_0000

  /** The largest value of the C size type, which the as-written line
      skipping wraps around to. */
  const SizeMax: nat := 0xFFFF_FFFF_FFFF_FFFF

  /** What is left of `s` after its first line: the text after the first
      line feed, or nothing when `s` has no line feed. */
  function DropLine(s: string): (r: string)
    ensures |r| <= |s|
  {
    if s == [] then []
    else if s[0] == '\n' then s[1..]
    else DropLine(s[1..])
  }

  /** What DropLine leaves is a suffix of its argument. */
  lemma {:induction false} DropLineIsSuffix(s: string)
    ensures DropLine(s) == s[|s| - |DropLine(s)|..]
  {
    if s != [] && s[0] != '\n' {
      DropLineIsSuffix(s[1..]);
      assert s[1..][|s| - 1 - |DropLine(s[1..])|..] == s[|s| - |DropLine(s)|..];
    }
  }

  /** Dropping a line stops at the first line feed. */
  lemma {:induction false} DropLineAt(s: string, k: nat)
    requires k < |s| && s[k] == '\n'
    requires '\n' !in s[..k]
    ensures DropLine(s) == s[k + 1..]
  {
    if k > 0 {
      assert s[0] == s[..k][0];
      assert s[1..][..k - 1] == s[1..k];
      assert forall c :: c in s[1..k] ==> c in s[..k];
      DropLineAt(s[1..], k - 1);
      assert s[1..][k..] == s[k + 1..];
    }
  }

  /** Dropping the first line of `l` + LF + `r` gives `r`. */
  lemma DropLineOfLine(l: string, r: string)
    requires '\n' !in l
    ensures DropLine(l + "\n" + r) == r
  {
    var s := l + "\n" + r;
    assert s[..|l|] == l;
    DropLineAt(s, |l|);
    assert s[|l| + 1..] == r;
  }

  /** The part of a body the cache hashes: for SDP everything after the
      version and origin lines, for any other content type the whole body. */
  function HashRegion(contentType: string, body: string): (r: string)
    ensures |r| <= |body| && r == body[|body| - |r|..]
    ensures contentType != APPLICATION_SDP ==> r == body
  {
    if contentType == APPLICATION_SDP then
      DropLineIsSuffix(body);
      DropLineIsSuffix(DropLine(body));
      DropLine(DropLine(body))
    else body
  }

  /** Two SDP bodies that differ only in their first two lines (version and
      origin) have the same hashed region: origin churn alone is not a
      change of the session description. */
  lemma OriginLinesIgnored(v1: string, o1: string, v2: string, o2: string, rest: string)
    requires '\n' !in v1 && '\n' !in o1 && '\n' !in v2 && '\n' !in o2
    ensures HashRegion(APPLICATION_SDP, v1 + "\n" + o1 + "\n" + rest) == rest
    ensures HashRegion(APPLICATION_SDP, v1 + "\n" + o1 + "\n" + rest)
         == HashRegion(APPLICATION_SDP, v2 + "\n" + o2 + "\n" + rest)
  {
    assert v1 + "\n" + o1 + "\n" + rest == v1 + "\n" + (o1 + "\n" + rest);
    assert v2 + "\n" + o2 + "\n" + rest == v2 + "\n" + (o2 + "\n" + rest);
    DropLineOfLine(v1, o1 + "\n" + rest);
    DropLineOfLine(o1, rest);
    DropLineOfLine(v2, o2 + "\n" + rest);
    DropLineOfLine(o2, rest);
  }

  /** One skip of a line over the region body[start..start+len], with the
      length kept from running below zero (the model's reading of the
      macro at core/AmB2BSession.cpp:434-437; see SkipLineAsWritten). */
  method SkipLine(body: string, start: nat, len: nat) returns (start': nat, len': nat)
    requires start + len == |body|
    ensures start' + len' == |body|
    ensures body[start'..] == DropLine(body[start..])
  {
    start', len' := start, len;
    while len' > 0 && body[start'] != '\n'
      invariant start <= start' && start' + len' == |body|
      invariant DropLine(body[start'..]) == DropLine(body[start..])
    {
      DropLineStep(body, start');
      start', len' := start' + 1, len' - 1;
    }
    if len' > 0 {
      DropLineStep(body, start');
      start', len' := start' + 1, len' - 1;
    }
  }

  /** One step of DropLine at position i of s. */
  lemma DropLineStep(s: string, i: nat)
    requires i <= |s|
    ensures i == |s| ==> DropLine(s[i..]) == s[i..]
    ensures i < |s| && s[i] == '\n' ==> DropLine(s[i..]) == s[i + 1..]
    ensures i < |s| && s[i] != '\n' ==> DropLine(s[i..]) == DropLine(s[i + 1..])
  {
    if i < |s| {
      assert s[i..][0] == s[i];
      assert s[i..][1..] == s[i + 1..];
    }
  }

  /** The pointer and length the cache hands to the hash function. */
  method HashedRange(contentType: string, body: string) returns (start: nat, len: nat)
    ensures start + len == |body|
    ensures body[start..] == HashRegion(contentType, body)
  {
    start, len := 0, |body|;
    if contentType == APPLICATION_SDP {
      start, len := SkipLine(body, start, len);
      start, len := SkipLine(body, start, len);
    }
  }

  /** The size-type post-decrement `n--`: from 0 it wraps to SizeMax. */
  function SizeDec(n: nat): (r: nat)
    requires n <= SizeMax
    ensures r <= SizeMax
    ensures n > 0 ==> r + 1 == n
  {
    if n == 0 then SizeMax else n - 1
  }

  /** The line skip exactly as the macro writes it: the length is tested
      and then decremented, also when it is already 0, and the pointer is
      stepped once more after the loop. With a line feed ahead it agrees
      with SkipLine; without one the length wraps to SizeMax and the
      pointer ends one past the string's terminator. */
  method SkipLineAsWritten(body: string, start: nat, len: nat) returns (start': nat, len': nat)
    requires start + len == |body| && len <= SizeMax
    ensures '\n' in body[start..] ==> start' + len' == |body| && body[start'..] == DropLine(body[start..])
    ensures '\n' !in body[start..] ==> start' == |body| + 1 && len' == SizeMax
  {
    start' := start;
    var tested := len;
    len' := SizeDec(len);
    while tested != 0 && body[start'] != '\n'
      invariant start <= start' && start' + tested == |body|
      invariant len' == SizeDec(tested)
      invariant forall j :: start <= j < start' ==> body[j] != '\n'
      invariant DropLine(body[start'..]) == DropLine(body[start..])
      decreases tested
    {
      DropLineStep(body, start');
      start' := start' + 1;
      tested := len';
      len' := SizeDec(len');
    }
    if tested == 0 {
      assert forall c :: c in body[start..] ==> c != '\n' by {
        forall c | c in body[start..] ensures c != '\n' {
          var j :| 0 <= j < |body[start..]| && body[start..][j] == c;
          assert body[start + j] == c;
        }
      }
    } else {
      assert body[start..][start' - start] == '\n';
      DropLineStep(body, start');
    }
    start' := start' + 1;
  }

  /** A two-line skip as written over an SDP body with a single line feed
      ("v=0" LF "o=x"): the second skip starts with no line feed ahead and
      leaves a wrapped length and a pointer past the end of the body. */
  method SdpHashRangeUnderflow() returns (start: nat, len: nat)
    ensures start == 8 && len == SizeMax
  {
    var body := "v=0\no=x";
    start, len := SkipLineAsWritten(body, 0, |body|);
    assert body[4..] == "o=x";
    start, len := SkipLineAsWritten(body, start, len);
  }

  /** The cached description: content type, body and the hash of its
      hashed region. */
  datatype SessionCache = SessionCache(contentType: string, body: string, hash: uint32)

  /** The cache after saving a description. */
  function Saved(h: string -> uint32, contentType: string, body: string): SessionCache {
    SessionCache(contentType, body, h(HashRegion(contentType, body)))
  }

  /** The cache after offering a description, and whether it changed: a new
      description replaces the cached one only when its hash differs. */
  function Updated(c: SessionCache, h: string -> uint32, contentType: string, body: string): (SessionCache, bool) {
    var newHash := h(HashRegion(contentType, body));
    if c.hash != newHash then (Saved(h, contentType, body), true) else (c, false)
  }

  /** Offering the same description twice in a row reports no change the
      second time, and the cache then holds that description's hash. */
  lemma UpdatedTwiceNoChange(c: SessionCache, h: string -> uint32, contentType: string, body: string)
    ensures var (c1, _) := Updated(c, h, contentType, body);
      c1.hash == h(HashRegion(contentType, body)) && Updated(c1, h, contentType, body) == (c1, false)
  {
  }

  /** After an SDP body is saved, a body that differs from it only in the
      version and origin lines is not a change. */
  lemma OriginChurnNotDetected(h: string -> uint32, v1: string, o1: string, v2: string, o2: string, rest: string)
    requires '\n' !in v1 && '\n' !in o1 && '\n' !in v2 && '\n' !in o2
    ensures var c := Saved(h, APPLICATION_SDP, v1 + "\n" + o1 + "\n" + rest);
      Updated(c, h, APPLICATION_SDP, v2 + "\n" + o2 + "\n" + rest) == (c, false)
  {
    OriginLinesIgnored(v1, o1, v2, o2, rest);
  }
}
