/**
 The remote session descriptions that the client and the field side synthesize from SFU transport
 parameters, and the injection of the consumer's ssrc.

 Letter case is changed for ASCII letters.  Numbers are printed in decimal.
 */
module Sdp {
  import Decimal
  import opened Lines
  import opened Wrappers

  datatype Candidate = Candidate(
    foundation: string, protocol: string, priority: nat, ip: string, port: nat, candidateType: string)

  datatype Fingerprint = Fingerprint(algorithm: string, value: string)

  datatype Transport = Transport(
    ufrag: string, pwd: string, fingerprints: seq<Fingerprint>, candidates: Option<seq<Candidate>>)

  datatype Codec = Codec(payloadType: nat, name: string, clockRate: nat, fmtp: Option<string>)

  datatype Direction = ServerSendonly | ServerRecvonly

  const MDNS: string := ".local"
  const MID_PREFIX: string := "a=" + "mid:"
  const CANDIDATE_PREFIX: string := "a=" + "candidate:"

  function LowerChar(c: char): char { if 'A' <= c <= 'Z' then c + 32 as char else c }
  function UpperChar(c: char): char { if 'a' <= c <= 'z' then c - 32 as char else c }
  function Lower(s: string): string { seq(|s|, i requires 0 <= i < |s| => LowerChar(s[i])) }
  function Upper(s: string): string { seq(|s|, i requires 0 <= i < |s| => UpperChar(s[i])) }

  // ---- Candidates ----

  predicate Routable(c: Candidate) { !Contains(c.ip, MDNS) }

  function TypeOf(c: Candidate): string {
    if c.candidateType in ["host", "srflx", "prflx", "relay"] then c.candidateType else "host"
  }

  /** An attribute line (section 5.13 of RFC 8866). */
  function Attr(body: string): string { "a=" + body }

  /** A candidate attribute (section 5.1 of RFC 8839), component 1. */
  function CandidateLine(c: Candidate): string {
    Attr("candidate:" + CandidateFields(c))
  }

  function CandidateFields(c: Candidate): string {
    c.foundation + " 1 " + Upper(c.protocol) + " " + Decimal.Print(c.priority) + " " + c.ip + " "
    + Decimal.Print(c.port) + " typ " + TypeOf(c)
  }

  function RoutableOnes(cands: seq<Candidate>): seq<Candidate> {
    if cands == [] then []
    else RoutableOnes(cands[..|cands| - 1]) + (if Routable(cands[|cands| - 1]) then [cands[|cands| - 1]] else [])
  }

  function Listed(cands: Option<seq<Candidate>>): seq<Candidate> {
    if cands.None? then [] else cands.value
  }

  function CandidateLines(cands: seq<Candidate>): seq<string> {
    seq(|cands|, i requires 0 <= i < |cands| => CandidateLine(cands[i]))
  }

  function ConnIp(t: Transport): string {
    var ok := RoutableOnes(Listed(t.candidates));
    if ok == [] then "0.0.0.0" else ok[0].ip
  }

  method AppendCandidates(lines: seq<string>, cands: Option<seq<Candidate>>) returns (r: seq<string>)
    ensures r == lines + CandidateLines(RoutableOnes(Listed(cands)))
  {
    r := lines;
    if cands.Some? {
      var cs := cands.value;
      for i := 0 to |cs|
        invariant r == lines + CandidateLines(RoutableOnes(cs[..i]))
      {
        NextCandidate(cs, i);
        if !Routable(cs[i]) {
          continue;
        }
        r := r + [CandidateLine(cs[i])];
      }
      assert cs[..|cs|] == cs;
    }
  }

  lemma NextCandidate(cs: seq<Candidate>, i: nat)
    requires i < |cs|
    ensures CandidateLines(RoutableOnes(cs[..i + 1]))
            == CandidateLines(RoutableOnes(cs[..i])) + (if Routable(cs[i]) then [CandidateLine(cs[i])] else [])
  {
    assert cs[..i + 1][..i] == cs[..i];
  }

  // ---- The descriptions ----

  function Bundle(d: Direction): string { if d.ServerSendonly? then "0" else "video" }

  /** The lines up to and including the media identification. */
  function Opening(t: Transport, mid: string, media: string, muxing: seq<string>): seq<string>
    requires t.fingerprints != []
  {
    SessionLines(t, mid) + ["m=" + media, "c=IN IP4 " + ConnIp(t)] + muxing + [Attr("mid:" + mid)]
  }

  function SessionLines(t: Transport, mid: string): seq<string>
    requires t.fingerprints != []
  {
    ["v=0", "o=- 0 0 IN IP4 0.0.0.0", "s=-", "t=0 0",
     Attr("group:BUNDLE " + mid),
     Attr("ice-lite"),
     Attr("ice-ufrag:" + t.ufrag),
     Attr("ice-pwd:" + t.pwd),
     Attr("fingerprint:" + Lower(t.fingerprints[0].algorithm) + " " + t.fingerprints[0].value),
     Attr("setup:actpass")]
  }

  function WideCcUri(): string {
    "http://www.ietf.org/id/" + "draft-holmer-rmcat-" + "transport-wide-cc-extensions-01"
  }

  function CaptureTimeUri(): string {
    "http://www.webrtc.org/" + "experiments/rtp-hdrext/" + "abs-capture-time"
  }

  function Extensions(): seq<string> {
    [Attr("extmap:1 " + "urn:ietf:params:rtp-hdrext:sdes:mid"),
     Attr("extmap:3 " + WideCcUri()),
     Attr("extmap:5 " + CaptureTimeUri())]
  }

  function CodecLines(c: Codec): seq<string> {
    var pt := Decimal.Print(c.payloadType);
    [Attr("rtpmap:" + pt + " " + c.name + "/" + Decimal.Print(c.clockRate)),
     Attr("rtcp-fb:" + pt + " nack"), Attr("rtcp-fb:" + pt + " nack pli"), Attr("rtcp-fb:" + pt + " ccm fir")]
    + FmtpLine(c)
  }

  function FmtpLine(c: Codec): seq<string> {
    if c.fmtp.Some? then [Attr("fmtp:" + Decimal.Print(c.payloadType) + " " + c.fmtp.value)] else []
  }

  function Ending(t: Transport): seq<string> {
    CandidateLines(RoutableOnes(Listed(t.candidates))) + [Attr("end-of-candidates"), ""]
  }

  function VideoOpening(t: Transport, c: Codec, d: Direction): seq<string>
    requires t.fingerprints != []
  {
    Opening(t, Bundle(d), "video 7 UDP/TLS/RTP/SAVPF " + Decimal.Print(c.payloadType),
            [Attr("rtcp-mux"), Attr("rtcp-rsize")])
  }

  function VideoRest(t: Transport, c: Codec, d: Direction): seq<string> {
    Extensions() + [Attr(if d.ServerSendonly? then "sendonly" else "recvonly")] + CodecLines(c) + Ending(t)
  }

  function VideoLines(t: Transport, c: Codec, d: Direction): seq<string>
    requires t.fingerprints != []
  {
    VideoOpening(t, c, d) + VideoRest(t, c, d)
  }

  function DataOpening(t: Transport): seq<string>
    requires t.fingerprints != []
  {
    Opening(t, "data", "application 9 UDP/DTLS/SCTP webrtc-datachannel", [])
  }

  function DataLines(t: Transport): seq<string>
    requires t.fingerprints != []
  {
    DataOpening(t) + [Attr("sctp-port:5000"), Attr("max-message-size:262144")] + Ending(t)
  }

  /** The field side's builder; it indexes the first fingerprint. */
  method BuildRemoteSdp(t: Transport, c: Codec, d: Direction) returns (text: string)
    requires t.fingerprints != []
    ensures text == Join(VideoLines(t, c, d), CRLF)
  {
    var lines := VideoOpening(t, c, d);
    lines := lines + Extensions();
    lines := lines + [Attr(if d.ServerSendonly? then "sendonly" else "recvonly")];
    lines := lines + CodecLines(c);
    lines := AppendCandidates(lines, t.candidates);
    lines := lines + [Attr("end-of-candidates")];
    lines := lines + [""];
    AppendedInSections(VideoOpening(t, c, d), Extensions(),
                       [Attr(if d.ServerSendonly? then "sendonly" else "recvonly")], CodecLines(c),
                       CandidateLines(RoutableOnes(Listed(t.candidates))));
    text := Join(lines, CRLF);
  }

  lemma AppendedInSections(a: seq<string>, b: seq<string>, c: seq<string>, d: seq<string>, e: seq<string>)
    ensures a + b + c + d + e + [Attr("end-of-candidates")] + [""]
            == a + (b + c + d + (e + [Attr("end-of-candidates"), ""]))
  {
  }

  /** The client's own fixed lines for a video receive description. */
  function ClientFixed(t: Transport, c: Codec): seq<string>
    requires t.fingerprints != []
  {
    ClientOpening(t, c) + Extensions() + ClientCodec(c)
  }

  function ClientOpening(t: Transport, c: Codec): seq<string>
    requires t.fingerprints != []
  {
    [ "v=0", "o=- 0 0 IN IP4 0.0.0.0",
      "s=-",
      "t=0 0",
      Attr("group:BUNDLE 0"),
      Attr("ice-lite"),
      Attr("ice-ufrag:" + t.ufrag),
      Attr("ice-pwd:" + t.pwd),
      Attr("fingerprint:" + Lower(t.fingerprints[0].algorithm) + " " + t.fingerprints[0].value),
      Attr("setup:actpass"),
      "m=" + ("video 7 UDP/TLS/RTP/SAVPF " + Decimal.Print(c.payloadType)),
      "c=IN IP4 " + ConnIp(t),
      Attr("rtcp-mux"),
      Attr("rtcp-rsize"),
      Attr("mid:0") ]
  }

  function ClientCodec(c: Codec): seq<string> {
    var pt := Decimal.Print(c.payloadType);
    [ Attr("sendonly"),
      Attr("rtpmap:" + pt + " " + c.name + "/" + Decimal.Print(c.clockRate)),
      Attr("rtcp-fb:" + pt + " nack"),
      Attr("rtcp-fb:" + pt + " nack pli"),
      Attr("rtcp-fb:" + pt + " ccm fir") ]
  }

  lemma ClientOpensLikeField(t: Transport, c: Codec)
    requires t.fingerprints != []
    ensures ClientOpening(t, c) == VideoOpening(t, c, ServerSendonly)
  {
    assert "group:BUNDLE " + "0" == "group:BUNDLE 0" && "mid:" + "0" == "mid:0";
  }

  lemma SameSections(
    open: seq<string>, ext: seq<string>, dir: seq<string>, codec: seq<string>, fmtp: seq<string>, end: seq<string>)
    ensures open + ext + (dir + codec) + fmtp + end == open + (ext + dir + (codec + fmtp) + end)
  {
  }

  /** The client's lines are the field side's server-sends lines, one for one. */
  lemma ClientMirrorsField(t: Transport, c: Codec)
    requires t.fingerprints != []
    ensures ClientFixed(t, c) + FmtpLine(c) + Ending(t) == VideoLines(t, c, ServerSendonly)
  {
    ClientOpensLikeField(t, c);
    var pt := Decimal.Print(c.payloadType);
    var codec := [Attr("rtpmap:" + pt + " " + c.name + "/" + Decimal.Print(c.clockRate)),
                  Attr("rtcp-fb:" + pt + " nack"),
                  Attr("rtcp-fb:" + pt + " nack pli"),
                  Attr("rtcp-fb:" + pt + " ccm fir")];
    assert ClientCodec(c) == [Attr("sendonly")] + codec;
    SameSections(ClientOpening(t, c), Extensions(), [Attr("sendonly")], codec, FmtpLine(c), Ending(t));
  }

  /** The client's builder: empty without a fingerprint, else the field side's server-sends text. */
  method BuildRecvVideoSdp(t: Transport, c: Codec) returns (text: string)
    ensures text == if t.fingerprints == [] then "" else Join(VideoLines(t, c, ServerSendonly), CRLF)
  {
    if t.fingerprints == [] {
      return "";
    }
    var lines := ClientFixed(t, c);
    lines := lines + FmtpLine(c);
    lines := AppendCandidates(lines, t.candidates);
    lines := lines + [Attr("end-of-candidates")];
    lines := lines + [""];
    EndedInSteps(ClientFixed(t, c) + FmtpLine(c), t);
    ClientMirrorsField(t, c);
    text := Join(lines, CRLF);
  }

  lemma EndedInSteps(a: seq<string>, t: Transport)
    ensures a + CandidateLines(RoutableOnes(Listed(t.candidates))) + [Attr("end-of-candidates")] + [""] == a + Ending(t)
  {
  }

  method BuildDcRemoteSdp(t: Transport) returns (text: string)
    ensures text == if t.fingerprints == [] then "" else Join(DataLines(t), CRLF)
  {
    if t.fingerprints == [] {
      return "";
    }
    var lines := DataOpening(t) + [Attr("sctp-port:5000"), Attr("max-message-size:262144")];
    EndedInSteps(lines, t);
    lines := AppendCandidates(lines, t.candidates);
    lines := lines + [Attr("end-of-candidates")];
    lines := lines + [""];
    text := Join(lines, CRLF);
  }

  // ---- Ssrc injection ----

  /** How a side names the injected source. */
  datatype Tag = Tag(cname: string, msid: string)

  const CLIENT_TAG := Tag("mediaservo-client", "remote video")
  const FIELD_TAG := Tag("mediaservo-pull", "pull video")

  function CnameLine(ssrc: nat, tag: Tag): string { Attr("ssrc:" + Decimal.Print(ssrc) + " cname:" + tag.cname) }
  function MsidLine(ssrc: nat, tag: Tag): string { Attr("ssrc:" + Decimal.Print(ssrc) + " msid:" + tag.msid) }

  function FirstMid(lines: seq<string>): (r: Option<nat>)
    ensures r.Some? ==> r.value < |lines| && MID_PREFIX <= lines[r.value]
                        && forall i :: 0 <= i < r.value ==> !(MID_PREFIX <= lines[i])
    ensures r.None? ==> forall i :: 0 <= i < |lines| ==> !(MID_PREFIX <= lines[i])
  {
    if lines == [] then None
    else if MID_PREFIX <= lines[0] then Some(0)
    else
      var rest := FirstMid(lines[1..]);
      if rest.None? then None else Some(rest.value + 1)
  }

  /** Two lines right after the first media identification, or one at the end when there is none. */
  function InjectedLines(lines: seq<string>, first: string, second: string): (r: seq<string>)
    ensures r != []
  {
    match FirstMid(lines)
    case Some(at) => lines[..at + 1] + [first, second] + lines[at + 1..]
    case None => lines + [first]
  }

  function Injected(lines: seq<string>, ssrc: nat, tag: Tag): (r: seq<string>)
    ensures r != []
  {
    InjectedLines(lines, CnameLine(ssrc, tag), MsidLine(ssrc, tag))
  }

  /** The loop over the lines, with its flag. */
  method InjectLines(lines: seq<string>, first: string, second: string) returns (out: seq<string>)
    ensures out == InjectedLines(lines, first, second)
  {
    var injected := false;
    out := [];
    ghost var mid := FirstMid(lines);
    for i := 0 to |lines|
      invariant injected <==> mid.Some? && mid.value < i
      invariant out == if injected then lines[..mid.value + 1] + [first, second] + lines[..i][mid.value + 1..]
                       else lines[..i]
    {
      assert lines[..i + 1] == lines[..i] + [lines[i]];
      out := out + [lines[i]];
      if !injected && MID_PREFIX <= lines[i] {
        out := out + [first];
        out := out + [second];
        injected := true;
      }
    }
    assert lines[..|lines|] == lines;
    if !injected {
      out := out + [first];
    }
  }

  method InjectRemoteSsrc(sdp: string, ssrc: Option<nat>, tag: Tag) returns (text: string)
    ensures ssrc.None? ==> text == sdp
    ensures ssrc.Some? ==>
              var sep := if Contains(sdp, CRLF) then CRLF else "\n";
              text == Join(Injected(Split(sdp, sep), ssrc.value, tag), sep)
  {
    if ssrc.None? {
      return sdp;
    }
    var sep := if Contains(sdp, CRLF) then CRLF else "\n";
    var out := InjectLines(Split(sdp, sep), CnameLine(ssrc.value, tag), MsidLine(ssrc.value, tag));
    text := Join(out, sep);
  }

  // ---- Shape of the descriptions ----

  predicate StartsWith(line: string, prefix: string) { prefix <= line }

  lemma SamePrefix(p: string, q: string, s: string)
    ensures p + q <= p + s <==> q <= s
  {
    if q <= s {
      assert (p + s)[..|p + q|] == p + s[..|q|];
    }
    if p + q <= p + s {
      assert s[..|q|] == (p + s)[..|p + q|][|p|..];
    }
  }

  lemma AttrStarts(body: string)
    ensures !StartsWith(Attr(body), "m=")
    ensures StartsWith(Attr(body), MID_PREFIX) <==> StartsWith(body, "mid:")
    ensures StartsWith(Attr(body), CANDIDATE_PREFIX) <==> StartsWith(body, "candidate:")
  {
    assert Attr(body)[0] == 'a';
    SamePrefix("a=", "mid:", body);
    SamePrefix("a=", "candidate:", body);
  }

  /** A line that is neither a media line, nor a media identification, nor a candidate. */
  predicate Plain(line: string) {
    !StartsWith(line, "m=") && !StartsWith(line, MID_PREFIX) && !StartsWith(line, CANDIDATE_PREFIX)
  }

  lemma PlainAttr(body: string)
    requires body != "" && body[0] != 'm' && body[0] != 'c'
    ensures Plain(Attr(body))
  {
    AttrStarts(body);
  }

  lemma PlainFrom(head: string, tail: string)
    requires head != "" && head[0] != 'm' && head[0] != 'c'
    ensures Plain(Attr(head + tail))
  {
    PlainAttr(head + tail);
  }

  lemma OtherLineIsPlain(line: string)
    requires line == "" || (line[0] != 'm' && line[0] != 'a')
    ensures Plain(line)
  {
  }

  ghost predicate AllPlain(lines: seq<string>) { forall i :: 0 <= i < |lines| ==> Plain(lines[i]) }

  lemma SessionLinesPlain(t: Transport, mid: string)
    requires t.fingerprints != []
    ensures AllPlain(SessionLines(t, mid))
  {
    PlainFrom("group:BUNDLE ", mid);
    PlainAttr("ice-lite");
    PlainFrom("ice-ufrag:", t.ufrag);
    PlainFrom("ice-pwd:", t.pwd);
    PlainFrom("fingerprint:" + Lower(t.fingerprints[0].algorithm) + " ", t.fingerprints[0].value);
    PlainAttr("setup:actpass");
    var lines := SessionLines(t, mid);
    forall i | 0 <= i < 4 ensures Plain(lines[i]) {
      OtherLineIsPlain(lines[i]);
    }
  }

  lemma FirstMidIsLast(lines: seq<string>, last: string)
    requires StartsWith(last, MID_PREFIX) && forall i :: 0 <= i < |lines| ==> !StartsWith(lines[i], MID_PREFIX)
    ensures forall rest :: FirstMid(lines + [last] + rest) == Some(|lines|)
  {
    forall rest ensures FirstMid(lines + [last] + rest) == Some(|lines|) {
      var all := lines + [last] + rest;
      assert all[|lines|] == last;
      assert forall i :: 0 <= i < |lines| ==> all[i] == lines[i];
    }
  }

  /** Ten plain lines, the one media line, plain lines, and the media identification that the bundle names. */
  lemma OpeningShape(t: Transport, mid: string, media: string, muxing: seq<string>)
    requires t.fingerprints != [] && AllPlain(muxing)
    ensures var o := Opening(t, mid, media, muxing);
            && |o| == 13 + |muxing|
            && (forall i :: 0 <= i < |o| - 1 && i != 10 ==> Plain(o[i]))
            && o[10] == "m=" + media
            && o[|o| - 1] == Attr("mid:" + mid)
            && o[4] == Attr("group:BUNDLE " + mid)
  {
    SessionLinesPlain(t, mid);
    OtherLineIsPlain("c=IN IP4 " + ConnIp(t));
    var session, o := SessionLines(t, mid), Opening(t, mid, media, muxing);
    assert forall i :: 0 <= i < 10 ==> o[i] == session[i];
    assert o[11] == "c=IN IP4 " + ConnIp(t);
    assert forall i :: 12 <= i < 12 + |muxing| ==> o[i] == muxing[i - 12];
  }

  lemma {:induction false} RoutableOnesExact(cands: seq<Candidate>)
    ensures forall c :: c in RoutableOnes(cands) <==> c in cands && Routable(c)
  {
    if cands != [] {
      RoutableOnesExact(cands[..|cands| - 1]);
      assert cands == cands[..|cands| - 1] + [cands[|cands| - 1]];
    }
  }

  predicate OneWord(s: string) { forall i :: 0 <= i < |s| ==> s[i] != ' ' }

  lemma NumberIsOneWord(n: nat)
    ensures OneWord(Decimal.Print(n))
  {
    forall i | 0 <= i < |Decimal.Print(n)| ensures Decimal.Print(n)[i] != ' ' {
      assert Decimal.IsDigit(Decimal.Print(n)[i]);
    }
  }

  function CandidateWords(c: Candidate): seq<string> {
    [c.foundation, "1", Upper(c.protocol), Decimal.Print(c.priority), c.ip, Decimal.Print(c.port), "typ", TypeOf(c)]
  }

  lemma JoinEight(a: string, b: string, c: string, d: string, e: string, f: string, g: string, h: string, sep: string)
    ensures Join([a, b, c, d, e, f, g, h], sep)
            == a + sep + b + sep + c + sep + d + sep + e + sep + f + sep + g + sep + h
  {
    assert [a] + [b] == [a, b] && [a, b] + [c] == [a, b, c] && [a, b, c] + [d] == [a, b, c, d];
    JoinSnoc([a], b, sep);
    JoinSnoc([a, b], c, sep);
    JoinSnoc([a, b, c], d, sep);
    JoinSnoc([a, b, c, d], e, sep);
    JoinSnoc([a, b, c, d, e], f, sep);
    JoinSnoc([a, b, c, d, e, f], g, sep);
    JoinSnoc([a, b, c, d, e, f, g], h, sep);
    assert [a, b, c, d] + [e] == [a, b, c, d, e] && [a, b, c, d, e] + [f] == [a, b, c, d, e, f];
    assert [a, b, c, d, e, f] + [g] == [a, b, c, d, e, f, g] && [a, b, c, d, e, f, g] + [h] == [a, b, c, d, e, f, g, h];
  }

  lemma Spaced(a: string, b: string, word: string, sp: string, glued: string)
    requires glued == sp + word + sp
    ensures a + glued + b == a + sp + word + sp + b
  {
  }

  lemma FieldsAreJoined(c: Candidate)
    ensures CandidateFields(c) == Join(CandidateWords(c), " ")
  {
    var f, u, n, p, k := c.foundation, Upper(c.protocol), Decimal.Print(c.priority), Decimal.Print(c.port), TypeOf(c);
    JoinEight(f, "1", u, n, c.ip, p, "typ", k, " ");
    Spaced(f, u, "1", " ", " 1 ");
    Spaced(f + " 1 " + u + " " + n + " " + c.ip + " " + p, k, "typ", " ", " typ ");
  }

  lemma TypeIsOneWord(c: Candidate)
    ensures OneWord(TypeOf(c))
  {
  }

  /**
   A candidate line reads back: its fields, split at the spaces, are the foundation, component 1, the
   transport, the priority, the address, the port and the type, in the order of section 5.1 of RFC 8839.
   */
  lemma CandidateParses(c: Candidate)
    requires OneWord(c.foundation) && OneWord(c.protocol) && OneWord(c.ip)
    ensures Split(CandidateFields(c), " ") == CandidateWords(c)
    ensures Decimal.Value(Decimal.Print(c.priority)) == c.priority && Decimal.Value(Decimal.Print(c.port)) == c.port
  {
    FieldsAreJoined(c);
    NumberIsOneWord(c.priority);
    NumberIsOneWord(c.port);
    TypeIsOneWord(c);
    assert OneWord(Upper(c.protocol)) by {
      assert forall i :: 0 <= i < |c.protocol| ==> Upper(c.protocol)[i] == UpperChar(c.protocol[i]);
    }
    assert OneWord("1") && OneWord("typ");
    WordsSplit(CandidateWords(c));
    Decimal.ValueOfPrint(c.priority);
    Decimal.ValueOfPrint(c.port);
  }

  lemma WordsSplit(words: seq<string>)
    requires words != [] && forall k :: 0 <= k < |words| ==> OneWord(words[k])
    ensures Split(Join(words, " "), " ") == words
  {
    SplitJoin(words, " ");
  }

  /**
   `lines` is an opening of `n` lines, plain lines, the candidates and two plain lines: its only media
   line is line 10, its only media identification is the opening's last line and equals the bundle tag
   of line 4, and its candidate lines are exactly those of `cs`, in order, after both.
   */
  ghost predicate WellShaped(lines: seq<string>, n: nat, mid: string, cs: seq<Candidate>) {
    && 12 < n && n + |cs| + 2 <= |lines|
    && lines[4] == Attr("group:BUNDLE " + mid) && lines[n - 1] == Attr("mid:" + mid)
    && (forall i :: 0 <= i < |lines| ==> LineKind(lines[i], i, n, |lines| - 2 - |cs|, |lines| - 2))
    && (forall j :: 0 <= j < |cs| ==> lines[|lines| - 2 - |cs| + j] == CandidateLine(cs[j]))
  }

  /** Line `i` is the media line iff it is line 10, the identification iff line n - 1, a candidate iff in range. */
  predicate LineKind(line: string, i: nat, n: nat, first: int, last: int) {
    && (StartsWith(line, "m=") <==> i == 10)
    && (StartsWith(line, MID_PREFIX) <==> i == n - 1)
    && (StartsWith(line, CANDIDATE_PREFIX) <==> first <= i < last)
  }

  predicate OnlyMid(line: string) {
    StartsWith(line, MID_PREFIX) && !StartsWith(line, CANDIDATE_PREFIX) && !StartsWith(line, "m=")
  }

  predicate OnlyMedia(line: string) {
    StartsWith(line, "m=") && !StartsWith(line, MID_PREFIX) && !StartsWith(line, CANDIDATE_PREFIX)
  }

  lemma MidLine(mid: string)
    ensures OnlyMid(Attr("mid:" + mid))
  {
    AttrStarts("mid:" + mid);
    SamePrefix("mid:", "", mid);
    assert ("mid:" + mid)[0] == 'm';
  }

  lemma MediaLine(media: string)
    ensures OnlyMedia("m=" + media)
  {
    SamePrefix("m=", "", media);
    assert ("m=" + media)[0] == 'm';
  }

  lemma CandidateStarts(c: Candidate)
    ensures StartsWith(CandidateLine(c), CANDIDATE_PREFIX) && !StartsWith(CandidateLine(c), MID_PREFIX)
    ensures !StartsWith(CandidateLine(c), "m=")
  {
    CandidateBody(CandidateFields(c));
  }

  lemma CandidateBody(fields: string)
    ensures StartsWith(Attr("candidate:" + fields), CANDIDATE_PREFIX)
    ensures !StartsWith(Attr("candidate:" + fields), MID_PREFIX)
    ensures !StartsWith(Attr("candidate:" + fields), "m=")
  {
    var body := "candidate:" + fields;
    AttrStarts(body);
    SamePrefix("candidate:", "", fields);
    assert body[0] == 'c';
  }

  lemma Assemble(o: seq<string>, mid: string, media: string, p: seq<string>, cs: seq<Candidate>)
    requires 12 < |o| && o[4] == Attr("group:BUNDLE " + mid)
    requires o[|o| - 1] == Attr("mid:" + mid) && o[10] == "m=" + media
    requires forall i :: 0 <= i < |o| - 1 && i != 10 ==> Plain(o[i])
    requires AllPlain(p)
    ensures WellShaped(o + p + CandidateLines(cs) + [Attr("end-of-candidates"), ""], |o|, mid, cs)
  {
    var lines := o + p + CandidateLines(cs) + [Attr("end-of-candidates"), ""];
    MidLine(mid);
    MediaLine(media);
    forall i | 0 <= i < |lines|
      ensures LineKind(lines[i], i, |o|, |lines| - 2 - |cs|, |lines| - 2)
    {
      AssembledKind(o, p, cs, i);
    }
  }

  /** What each assembled line starts with. */
  lemma AssembledKind(o: seq<string>, p: seq<string>, cs: seq<Candidate>, i: nat)
    requires 12 < |o| && OnlyMedia(o[10]) && OnlyMid(o[|o| - 1])
    requires forall j :: 0 <= j < |o| - 1 && j != 10 ==> Plain(o[j])
    requires AllPlain(p) && i < |o| + |p| + |cs| + 2
    ensures LineKind((o + p + CandidateLines(cs) + [Attr("end-of-candidates"), ""])[i],
                     i, |o|, |o| + |p|, |o| + |p| + |cs|)
  {
    var lines := o + p + CandidateLines(cs) + [Attr("end-of-candidates"), ""];
    if i < |o| {
      assert lines[i] == o[i];
    } else if i < |o| + |p| {
      assert lines[i] == p[i - |o|];
    } else if i < |lines| - 2 {
      assert lines[i] == CandidateLine(cs[i - |o| - |p|]);
      CandidateStarts(cs[i - |o| - |p|]);
    } else {
      PlainAttr("end-of-candidates");
      OtherLineIsPlain("");
    }
  }

  function VideoMiddle(c: Codec, d: Direction): seq<string> {
    Extensions() + [Attr(if d.ServerSendonly? then "sendonly" else "recvonly")] + CodecLines(c)
  }

  lemma MiddlePlain(c: Codec, d: Direction)
    ensures AllPlain(VideoMiddle(c, d))
  {
    ExtensionsPlain();
    PlainAttr("sendonly");
    PlainAttr("recvonly");
    CodecPlain(c);
  }

  lemma ExtensionsPlain()
    ensures AllPlain(Extensions())
  {
    PlainAttr("extmap:1 " + "urn:ietf:params:rtp-hdrext:sdes:mid");
    PlainAttr("extmap:3 " + WideCcUri());
    PlainAttr("extmap:5 " + CaptureTimeUri());
  }

  lemma CodecPlain(c: Codec)
    ensures AllPlain(CodecLines(c))
  {
    var pt := Decimal.Print(c.payloadType);
    PlainAttr("rtpmap:" + pt + " " + c.name + "/" + Decimal.Print(c.clockRate));
    PlainAttr("rtcp-fb:" + pt + " nack");
    PlainAttr("rtcp-fb:" + pt + " nack pli");
    PlainAttr("rtcp-fb:" + pt + " ccm fir");
    if c.fmtp.Some? {
      PlainAttr("fmtp:" + pt + " " + c.fmtp.value);
    }
  }

  /** The video description, in both directions. */
  lemma VideoIsWellShaped(t: Transport, c: Codec, d: Direction)
    requires t.fingerprints != []
    ensures WellShaped(VideoLines(t, c, d), 15, Bundle(d), RoutableOnes(Listed(t.candidates)))
  {
    var muxing := [Attr("rtcp-mux"), Attr("rtcp-rsize")];
    MuxingPlain();
    var media := "video 7 UDP/TLS/RTP/SAVPF " + Decimal.Print(c.payloadType);
    OpeningShape(t, Bundle(d), media, muxing);
    MiddlePlain(c, d);
    var cs := RoutableOnes(Listed(t.candidates));
    Assemble(VideoOpening(t, c, d), Bundle(d), media, VideoMiddle(c, d), cs);
    Regroup(VideoOpening(t, c, d), VideoMiddle(c, d), CandidateLines(cs));
  }

  lemma MuxingPlain()
    ensures AllPlain([Attr("rtcp-mux"), Attr("rtcp-rsize")])
  {
    assert "rtcp-mux"[0] == 'r' && "rtcp-rsize"[0] == 'r';
    PlainAttr("rtcp-mux");
    PlainAttr("rtcp-rsize");
  }

  lemma Regroup(a: seq<string>, b: seq<string>, c: seq<string>)
    ensures a + b + c + [Attr("end-of-candidates"), ""] == a + (b + (c + [Attr("end-of-candidates"), ""]))
  {
  }

  /** The data-channel description. */
  lemma DataIsWellShaped(t: Transport)
    requires t.fingerprints != []
    ensures WellShaped(DataLines(t), 13, "data", RoutableOnes(Listed(t.candidates)))
  {
    var media := "application 9 UDP/DTLS/SCTP webrtc-datachannel";
    OpeningShape(t, "data", media, []);
    var p := [Attr("sctp-port:5000"), Attr("max-message-size:262144")];
    PlainAttr("sctp-port:5000");
    NotMid();
    var cs := RoutableOnes(Listed(t.candidates));
    Assemble(DataOpening(t), "data", media, p, cs);
    assert DataLines(t) == DataOpening(t) + p + CandidateLines(cs) + [Attr("end-of-candidates"), ""];
  }

  lemma NotMid()
    ensures Plain(Attr("max-message-size:262144"))
  {
    AttrStarts("max-message-size:262144");
    assert "max-message-size:262144"[1] == 'a' && "mid:"[1] == 'i' && "candidate:"[0] == 'c';
  }

  // ---- What the descriptions say ----

  /** What follows `prefix` on the first line that starts with it. */
  function Attribute(lines: seq<string>, prefix: string): Option<string> {
    if lines == [] then None
    else if prefix <= lines[0] then Some(lines[0][|prefix|..])
    else Attribute(lines[1..], prefix)
  }

  lemma {:induction false} AttributeAt(lines: seq<string>, prefix: string, value: string, i: nat)
    requires i < |lines| && lines[i] == prefix + value
    requires forall j :: 0 <= j < i ==> !(prefix <= lines[j])
    ensures Attribute(lines, prefix) == Some(value)
  {
    if i > 0 {
      AttributeAt(lines[1..], prefix, value, i - 1);
    }
  }

  lemma Differs(prefix: string, line: string, k: nat)
    requires k < |prefix| && k < |line| && prefix[k] != line[k]
    ensures !(prefix <= line)
  {
  }

  lemma FixedLinesDiffer(t: Transport, mid: string, prefix: string)
    requires t.fingerprints != [] && |prefix| > 6 && prefix[0] == 'a' && prefix[2] != 'g'
    requires prefix[2] != 'i' || prefix[6] != 'l'
    ensures forall j :: 0 <= j < 6 ==> !(prefix <= SessionLines(t, mid)[j])
  {
    var lines := SessionLines(t, mid);
    Differs(prefix, lines[0], 0);
    Differs(prefix, lines[1], 0);
    Differs(prefix, lines[2], 0);
    Differs(prefix, lines[3], 0);
    assert lines[4][2] == 'g';
    Differs(prefix, lines[4], 2);
    assert lines[5] == "a=" + "ice-lite";
    if prefix[2] != 'i' {
      Differs(prefix, lines[5], 2);
    } else {
      Differs(prefix, lines[5], 6);
    }
  }

  lemma UfragReadsBack(t: Transport, mid: string)
    requires t.fingerprints != []
    ensures Attribute(SessionLines(t, mid), "a=" + "ice-ufrag:") == Some(t.ufrag)
  {
    FixedLinesDiffer(t, mid, "a=" + "ice-ufrag:");
    assert SessionLines(t, mid)[6] == "a=" + "ice-ufrag:" + t.ufrag;
    AttributeAt(SessionLines(t, mid), "a=" + "ice-ufrag:", t.ufrag, 6);
  }

  lemma PwdReadsBack(t: Transport, mid: string)
    requires t.fingerprints != []
    ensures Attribute(SessionLines(t, mid), "a=" + "ice-pwd:") == Some(t.pwd)
  {
    var lines := SessionLines(t, mid);
    FixedLinesDiffer(t, mid, "a=" + "ice-pwd:");
    assert lines[6][6] == 'u';
    Differs("a=" + "ice-pwd:", lines[6], 6);
    assert lines[7] == "a=" + "ice-pwd:" + t.pwd;
    AttributeAt(lines, "a=" + "ice-pwd:", t.pwd, 7);
  }

  lemma FingerprintReadsBack(t: Transport, mid: string)
    requires t.fingerprints != []
    ensures Attribute(SessionLines(t, mid), "a=" + "fingerprint:")
            == Some(Lower(t.fingerprints[0].algorithm) + " " + t.fingerprints[0].value)
  {
    var lines := SessionLines(t, mid);
    var value := Lower(t.fingerprints[0].algorithm) + " " + t.fingerprints[0].value;
    FixedLinesDiffer(t, mid, "a=" + "fingerprint:");
    assert lines[6][2] == 'i' && lines[7][2] == 'i';
    Differs("a=" + "fingerprint:", lines[6], 2);
    Differs("a=" + "fingerprint:", lines[7], 2);
    assert lines[8] == "a=" + "fingerprint:" + value;
    AttributeAt(lines, "a=" + "fingerprint:", value, 8);
  }

  lemma {:induction false} AttributeStays(lines: seq<string>, rest: seq<string>, prefix: string)
    requires Attribute(lines, prefix).Some?
    ensures Attribute(lines + rest, prefix) == Attribute(lines, prefix)
  {
    if !(prefix <= lines[0]) {
      AttributeStays(lines[1..], rest, prefix);
      assert (lines + rest)[1..] == lines[1..] + rest;
    }
  }

  lemma CredentialsIn(t: Transport, mid: string, rest: seq<string>)
    requires t.fingerprints != []
    ensures var lines := SessionLines(t, mid) + rest;
            && Attribute(lines, "a=" + "ice-ufrag:") == Some(t.ufrag)
            && Attribute(lines, "a=" + "ice-pwd:") == Some(t.pwd)
            && Attribute(lines, "a=" + "fingerprint:")
               == Some(Lower(t.fingerprints[0].algorithm) + " " + t.fingerprints[0].value)
  {
    UfragReadsBack(t, mid);
    PwdReadsBack(t, mid);
    FingerprintReadsBack(t, mid);
    AttributeStays(SessionLines(t, mid), rest, "a=" + "ice-ufrag:");
    AttributeStays(SessionLines(t, mid), rest, "a=" + "ice-pwd:");
    AttributeStays(SessionLines(t, mid), rest, "a=" + "fingerprint:");
  }

  /**
   A reader of either description gets the transport's credentials: the user fragment and the password
   each under its own name, and the first fingerprint with its algorithm in lower case.
   */
  lemma CredentialsReadBack(t: Transport, c: Codec, d: Direction)
    requires t.fingerprints != []
    ensures var lines := VideoLines(t, c, d);
            && Attribute(lines, "a=" + "ice-ufrag:") == Some(t.ufrag)
            && Attribute(lines, "a=" + "ice-pwd:") == Some(t.pwd)
            && Attribute(lines, "a=" + "fingerprint:")
               == Some(Lower(t.fingerprints[0].algorithm) + " " + t.fingerprints[0].value)
    ensures var lines := DataLines(t);
            && Attribute(lines, "a=" + "ice-ufrag:") == Some(t.ufrag)
            && Attribute(lines, "a=" + "ice-pwd:") == Some(t.pwd)
            && Attribute(lines, "a=" + "fingerprint:")
               == Some(Lower(t.fingerprints[0].algorithm) + " " + t.fingerprints[0].value)
  {
    var media := ["m=" + ("video 7 UDP/TLS/RTP/SAVPF " + Decimal.Print(c.payloadType)), "c=IN IP4 " + ConnIp(t)];
    var muxing, mid := [Attr("rtcp-mux"), Attr("rtcp-rsize")], [Attr("mid:" + Bundle(d))];
    SplitOff(SessionLines(t, Bundle(d)), media, muxing, mid, VideoRest(t, c, d));
    CredentialsIn(t, Bundle(d), media + muxing + mid + VideoRest(t, c, d));
    DataCredentials(t);
  }

  lemma DataCredentials(t: Transport)
    requires t.fingerprints != []
    ensures var lines := DataLines(t);
            && Attribute(lines, "a=" + "ice-ufrag:") == Some(t.ufrag)
            && Attribute(lines, "a=" + "ice-pwd:") == Some(t.pwd)
            && Attribute(lines, "a=" + "fingerprint:")
               == Some(Lower(t.fingerprints[0].algorithm) + " " + t.fingerprints[0].value)
  {
    var media := ["m=" + "application 9 UDP/DTLS/SCTP webrtc-datachannel", "c=IN IP4 " + ConnIp(t)];
    var mid, p := [Attr("mid:" + "data")], [Attr("sctp-port:5000"), Attr("max-message-size:262144")];
    SplitOff(SessionLines(t, "data"), media, [], mid, p);
    var section := media + [] + mid + p;
    SplitLast(SessionLines(t, "data"), section, Ending(t));
    CredentialsIn(t, "data", section + Ending(t));
  }

  lemma SplitLast(session: seq<string>, a: seq<string>, b: seq<string>)
    ensures session + a + b == session + (a + b)
  {
  }

  lemma SplitOff(session: seq<string>, a: seq<string>, b: seq<string>, c: seq<string>, d: seq<string>)
    ensures session + a + b + c + d == session + (a + b + c + d)
  {
  }

  /** The media line, the address, the direction and the codec, each where the media section has it. */
  lemma MediaSectionSays(t: Transport, c: Codec, d: Direction)
    requires t.fingerprints != []
    ensures var lines := VideoLines(t, c, d);
            var cs := RoutableOnes(Listed(t.candidates));
            var pt := Decimal.Print(c.payloadType);
            && |lines| == 23 + (if c.fmtp.Some? then 1 else 0) + |cs| + 2
            && lines[10] == "m=" + ("video 7 UDP/TLS/RTP/SAVPF " + pt)
            && lines[11] == "c=IN IP4 " + (if cs == [] then "0.0.0.0" else cs[0].ip)
            && lines[14] == Attr(if d == ServerSendonly then "mid:0" else "mid:video")
            && lines[18] == Attr(if d == ServerSendonly then "sendonly" else "recvonly")
            && lines[19] == Attr("rtpmap:" + pt + " " + c.name + "/" + Decimal.Print(c.clockRate))
            && (c.fmtp.Some? ==> lines[23] == Attr("fmtp:" + pt + " " + c.fmtp.value))
  {
    var o, e := VideoOpening(t, c, d), Extensions();
    var lines := VideoLines(t, c, d);
    assert |o| == 15 && |e| == 3;
    assert "mid:" + "0" == "mid:0" && "mid:" + "video" == "mid:video";
    assert lines[10] == o[10] && lines[11] == o[11] && lines[14] == o[14];
    assert lines[18] == VideoRest(t, c, d)[3];
    assert lines[19] == VideoRest(t, c, d)[4];
  }

  /** The same for the data-channel description. */
  lemma DataSectionSays(t: Transport)
    requires t.fingerprints != []
    ensures var lines := DataLines(t);
            var cs := RoutableOnes(Listed(t.candidates));
            && |lines| == 15 + |cs| + 2
            && lines[10] == "m=" + "application 9 UDP/DTLS/SCTP webrtc-datachannel"
            && lines[11] == "c=IN IP4 " + (if cs == [] then "0.0.0.0" else cs[0].ip)
            && lines[12] == "a=" + ("mid:" + "data")
            && lines[13] == "a=" + "sctp-port:5000" && lines[14] == "a=" + "max-message-size:262144"
  {
    var o, p := DataOpening(t), [Attr("sctp-port:5000"), Attr("max-message-size:262144")];
    assert |o| == 13;
    assert DataLines(t) == o + p + Ending(t);
    assert DataLines(t)[10] == o[10] && DataLines(t)[11] == o[11] && DataLines(t)[12] == o[12];
  }

  /** Exactly the candidates whose address does not contain `.local` anywhere, each as often and in the order listed. */
  lemma OnlyLocalNamesAreLeftOut(cands: seq<Candidate>, more: seq<Candidate>)
    ensures forall c :: c in RoutableOnes(cands) <==> c in cands && forall i: nat :: !OccursAt(".local", c.ip, i)
    ensures RoutableOnes(cands + more) == RoutableOnes(cands) + RoutableOnes(more)
  {
    RoutableOnesExact(cands);
    forall c | c in cands ensures Routable(c) <==> forall i: nat :: !OccursAt(".local", c.ip, i) {
      FindIsFirst(c.ip, ".local");
    }
    RoutableConcat(cands, more);
  }

  lemma {:induction false} RoutableConcat(cands: seq<Candidate>, more: seq<Candidate>)
    ensures RoutableOnes(cands + more) == RoutableOnes(cands) + RoutableOnes(more)
  {
    if more == [] {
      assert cands + more == cands;
    } else {
      var init, last := more[..|more| - 1], more[|more| - 1];
      assert (cands + more)[..|cands + more| - 1] == cands + init;
      RoutableConcat(cands, init);
    }
  }

  /** Unknown candidate types are written as host. */
  lemma TypesAreKnown(c: Candidate)
    ensures TypeOf(c) == "host" || TypeOf(c) == "srflx" || TypeOf(c) == "prflx" || TypeOf(c) == "relay"
    ensures c.candidateType == "srflx" || c.candidateType == "prflx" || c.candidateType == "relay"
            ==> TypeOf(c) == c.candidateType
    ensures c.candidateType != "srflx" && c.candidateType != "prflx" && c.candidateType != "relay"
            ==> TypeOf(c) == "host"
  {
  }

  /** The transport is written in capitals, the fingerprint's algorithm in small letters. */
  lemma LettersChangeCase()
    ensures Upper("udp") == "UDP" && Upper("tcp") == "TCP" && Upper("UDP") == "UDP"
    ensures Lower("SHA-256") == "sha-256" && Lower("sha-512") == "sha-512"
  {
  }

  /** The two lines that name the source (section 4.1 of RFC 5576), as each side writes them. */
  lemma SourceLines(ssrc: nat)
    ensures var n := Decimal.Print(ssrc);
            && CnameLine(ssrc, CLIENT_TAG) == "a=" + ("ssrc:" + n + " cname:" + "mediaservo-client")
            && MsidLine(ssrc, CLIENT_TAG) == "a=" + ("ssrc:" + n + " msid:" + "remote video")
            && CnameLine(ssrc, FIELD_TAG) == "a=" + ("ssrc:" + n + " cname:" + "mediaservo-pull")
            && MsidLine(ssrc, FIELD_TAG) == "a=" + ("ssrc:" + n + " msid:" + "pull video")
  {
  }

  /** A text without a media identification gets the source's name alone, at its end. */
  lemma InjectionWithoutMid(lines: seq<string>, ssrc: nat, tag: Tag)
    requires forall i :: 0 <= i < |lines| ==> !StartsWith(lines[i], "a=" + "mid:")
    ensures Injected(lines, ssrc, tag) == lines + ["a=" + ("ssrc:" + Decimal.Print(ssrc) + " cname:" + tag.cname)]
  {
    assert FirstMid(lines) == None;
  }

  // ---- Building, injecting and splitting again ----

  predicate Clean(s: string) { forall i :: 0 <= i < |s| ==> s[i] != '\r' && s[i] != '\n' }

  predicate CleanInput(t: Transport, c: Codec) {
    && Clean(t.ufrag) && Clean(t.pwd)
    && (forall i :: 0 <= i < |t.fingerprints| ==> Clean(t.fingerprints[i].algorithm) && Clean(t.fingerprints[i].value))
    && (forall i :: 0 <= i < |Listed(t.candidates)| ==>
         var x := Listed(t.candidates)[i];
         Clean(x.foundation) && Clean(x.protocol) && Clean(x.ip) && Clean(x.candidateType))
    && Clean(c.name) && (c.fmtp.Some? ==> Clean(c.fmtp.value))
  }

  predicate CleanLines(lines: seq<string>) { forall i :: 0 <= i < |lines| ==> Clean(lines[i]) }

  lemma CleanCat(a: string, b: string)
    requires Clean(a) && Clean(b)
    ensures Clean(a + b)
  {
  }

  lemma CleanPrint(n: nat)
    ensures Clean(Decimal.Print(n))
  {
    forall i | 0 <= i < |Decimal.Print(n)| ensures Decimal.Print(n)[i] != '\r' && Decimal.Print(n)[i] != '\n' {
      assert Decimal.IsDigit(Decimal.Print(n)[i]);
    }
  }

  lemma CleanCase(s: string)
    requires Clean(s)
    ensures Clean(Upper(s)) && Clean(Lower(s))
  {
  }

  lemma CleanCandidate(c: Candidate)
    requires Clean(c.foundation) && Clean(c.protocol) && Clean(c.ip) && Clean(c.candidateType)
    ensures Clean(CandidateLine(c))
  {
    CleanCase(c.protocol);
    CleanPrint(c.priority);
    CleanPrint(c.port);
    CleanCat(c.foundation, " 1 ");
    CleanCat(c.foundation + " 1 ", Upper(c.protocol));
    var a := c.foundation + " 1 " + Upper(c.protocol);
    CleanCat(a, " ");
    CleanCat(a + " ", Decimal.Print(c.priority));
    CleanCat(a + " " + Decimal.Print(c.priority), " ");
    var b := a + " " + Decimal.Print(c.priority) + " ";
    CleanCat(b, c.ip);
    CleanCat(b + c.ip, " ");
    CleanCat(b + c.ip + " ", Decimal.Print(c.port));
    CleanCat(b + c.ip + " " + Decimal.Print(c.port), " typ ");
    CleanCat(b + c.ip + " " + Decimal.Print(c.port) + " typ ", TypeOf(c));
    CleanCat("candidate:", CandidateFields(c));
    CleanAttr("candidate:" + CandidateFields(c));
  }

  lemma CleanAttr(body: string)
    requires Clean(body)
    ensures Clean(Attr(body))
  {
    CleanCat("a=", body);
  }

  lemma CleanSession(t: Transport, mid: string)
    requires t.fingerprints != [] && Clean(mid) && Clean(t.ufrag) && Clean(t.pwd)
    requires Clean(t.fingerprints[0].algorithm) && Clean(t.fingerprints[0].value)
    ensures CleanLines(SessionLines(t, mid))
  {
    CleanCase(t.fingerprints[0].algorithm);
    CleanAttr("group:BUNDLE " + mid);
    CleanAttr("ice-lite");
    CleanAttr("ice-ufrag:" + t.ufrag);
    CleanAttr("ice-pwd:" + t.pwd);
    CleanAttr("fingerprint:" + Lower(t.fingerprints[0].algorithm) + " " + t.fingerprints[0].value);
    CleanAttr("setup:actpass");
  }

  lemma CleanUris()
    ensures Clean(WideCcUri()) && Clean(CaptureTimeUri())
  {
    CleanCat("http://www.ietf.org/id/", "draft-holmer-rmcat-");
    CleanCat("http://www.ietf.org/id/" + "draft-holmer-rmcat-", "transport-wide-cc-extensions-01");
    CleanCat("http://www.webrtc.org/", "experiments/rtp-hdrext/");
    CleanCat("http://www.webrtc.org/" + "experiments/rtp-hdrext/", "abs-capture-time");
  }

  lemma CleanExtensions()
    ensures CleanLines(Extensions())
  {
    CleanUris();
    CleanCat("extmap:1 ", "urn:ietf:params:rtp-hdrext:sdes:mid");
    CleanCat("extmap:3 ", WideCcUri());
    CleanCat("extmap:5 ", CaptureTimeUri());
    CleanAttr("extmap:1 " + "urn:ietf:params:rtp-hdrext:sdes:mid");
    CleanAttr("extmap:3 " + WideCcUri());
    CleanAttr("extmap:5 " + CaptureTimeUri());
  }

  lemma CleanCodec(c: Codec)
    requires Clean(c.name) && (c.fmtp.Some? ==> Clean(c.fmtp.value))
    ensures CleanLines(CodecLines(c))
  {
    var pt := Decimal.Print(c.payloadType);
    CleanPrint(c.payloadType);
    CleanPrint(c.clockRate);
    CleanAttr("rtpmap:" + pt + " " + c.name + "/" + Decimal.Print(c.clockRate));
    CleanAttr("rtcp-fb:" + pt + " nack");
    CleanAttr("rtcp-fb:" + pt + " nack pli");
    CleanAttr("rtcp-fb:" + pt + " ccm fir");
    if c.fmtp.Some? {
      CleanAttr("fmtp:" + pt + " " + c.fmtp.value);
    }
  }

  lemma CleanEnding(t: Transport, c: Codec)
    requires CleanInput(t, c)
    ensures CleanLines(Ending(t)) && Clean(ConnIp(t))
  {
    var all := Listed(t.candidates);
    var cs := RoutableOnes(all);
    RoutableOnesExact(all);
    CleanAttr("end-of-candidates");
    forall i | 0 <= i < |cs| ensures Clean(CandidateLine(cs[i])) && Clean(cs[i].ip) {
      assert cs[i] in all;
      CleanCandidate(cs[i]);
    }
    assert forall i :: 0 <= i < |cs| ==> Ending(t)[i] == CandidateLine(cs[i]);
  }

  lemma CleanOpening(t: Transport, c: Codec, d: Direction)
    requires t.fingerprints != [] && CleanInput(t, c)
    ensures CleanLines(VideoOpening(t, c, d))
  {
    CleanSession(t, Bundle(d));
    CleanEnding(t, c);
    CleanPrint(c.payloadType);
    CleanCat("video 7 UDP/TLS/RTP/SAVPF ", Decimal.Print(c.payloadType));
    CleanCat("m=", "video 7 UDP/TLS/RTP/SAVPF " + Decimal.Print(c.payloadType));
    CleanCat("c=IN IP4 ", ConnIp(t));
    CleanAttr("rtcp-mux");
    CleanAttr("rtcp-rsize");
    CleanAttr("mid:" + Bundle(d));
  }

  lemma CleanLinesCat(a: seq<string>, b: seq<string>)
    requires CleanLines(a) && CleanLines(b)
    ensures CleanLines(a + b)
  {
  }

  lemma CleanRest(t: Transport, c: Codec, d: Direction)
    requires CleanInput(t, c)
    ensures CleanLines(VideoRest(t, c, d))
  {
    var side := Attr(if d.ServerSendonly? then "sendonly" else "recvonly");
    CleanExtensions();
    CleanAttr(if d.ServerSendonly? then "sendonly" else "recvonly");
    CleanCodec(c);
    CleanEnding(t, c);
    CleanLinesCat(Extensions(), [side]);
    CleanLinesCat(Extensions() + [side], CodecLines(c));
    CleanLinesCat(Extensions() + [side] + CodecLines(c), Ending(t));
  }

  lemma CleanTags(ssrc: nat, tag: Tag)
    requires Clean(tag.cname) && Clean(tag.msid)
    ensures Clean(CnameLine(ssrc, tag)) && Clean(MsidLine(ssrc, tag))
  {
    CleanPrint(ssrc);
    CleanAttr("ssrc:" + Decimal.Print(ssrc) + " cname:" + tag.cname);
    CleanAttr("ssrc:" + Decimal.Print(ssrc) + " msid:" + tag.msid);
  }

  lemma JoinedHasCrlf(lines: seq<string>)
    requires |lines| > 1 && CleanLines(lines)
    ensures Contains(Join(lines, CRLF), CRLF)
  {
    FindSkips(lines[0], CRLF, Join(lines[1..], CRLF));
  }

  lemma CleanSplits(lines: seq<string>)
    requires lines != [] && CleanLines(lines)
    ensures Split(Join(lines, CRLF), CRLF) == lines
  {
    SplitJoin(lines, CRLF);
  }

  /**
   Main result.  For inputs free of CR and LF, the text built and then injected splits back into exactly
   the built lines with the two ssrc lines right after the media identification, which itself lies in
   the media section (sections 4.1 of RFC 5576 and 5 of RFC 8866).
   */
  lemma BuildInjectSplit(t: Transport, c: Codec, d: Direction, ssrc: nat, tag: Tag)
    requires t.fingerprints != [] && CleanInput(t, c) && Clean(tag.cname) && Clean(tag.msid)
    ensures var text := Join(VideoLines(t, c, d), CRLF);
            && Contains(text, "\r\n")
            && Split(text, "\r\n") == VideoLines(t, c, d)
            && var out := Join(Injected(Split(text, CRLF), ssrc, tag), CRLF);
            && Split(out, CRLF)
               == VideoOpening(t, c, d) + [CnameLine(ssrc, tag), MsidLine(ssrc, tag)] + VideoRest(t, c, d)
    ensures VideoOpening(t, c, d)[14] == Attr("mid:" + Bundle(d)) && |VideoOpening(t, c, d)| == 15
  {
    CleanOpening(t, c, d);
    CleanRest(t, c, d);
    CleanTags(ssrc, tag);
    MidEndsOpening(t, c, d);
    InjectSplit(VideoOpening(t, c, d), VideoRest(t, c, d), CnameLine(ssrc, tag), MsidLine(ssrc, tag));
  }

  lemma CleanTagNames()
    ensures Clean(CLIENT_TAG.cname) && Clean(CLIENT_TAG.msid) && Clean(FIELD_TAG.cname) && Clean(FIELD_TAG.msid)
  {
  }

  /** The result for the names the two sides use: the client pulls what the server sends, the field side either way. */
  lemma BothSidesInject(t: Transport, c: Codec, d: Direction, ssrc: nat)
    requires t.fingerprints != [] && CleanInput(t, c)
    ensures var pulled := Join(VideoLines(t, c, ServerSendonly), CRLF);
            Split(Join(Injected(Split(pulled, CRLF), ssrc, CLIENT_TAG), CRLF), CRLF)
            == VideoOpening(t, c, ServerSendonly)
               + [CnameLine(ssrc, CLIENT_TAG), MsidLine(ssrc, CLIENT_TAG)] + VideoRest(t, c, ServerSendonly)
    ensures var text := Join(VideoLines(t, c, d), CRLF);
            Split(Join(Injected(Split(text, CRLF), ssrc, FIELD_TAG), CRLF), CRLF)
            == VideoOpening(t, c, d) + [CnameLine(ssrc, FIELD_TAG), MsidLine(ssrc, FIELD_TAG)] + VideoRest(t, c, d)
  {
    CleanTagNames();
    BuildInjectSplit(t, c, ServerSendonly, ssrc, CLIENT_TAG);
    BuildInjectSplit(t, c, d, ssrc, FIELD_TAG);
  }

  lemma MidEndsOpening(t: Transport, c: Codec, d: Direction)
    requires t.fingerprints != []
    ensures var o := VideoOpening(t, c, d);
            && |o| == 15 && o[14] == Attr("mid:" + Bundle(d)) && StartsWith(o[14], MID_PREFIX)
            && forall i :: 0 <= i < 14 ==> !StartsWith(o[i], MID_PREFIX)
  {
    VideoIsWellShaped(t, c, d);
    var o, lines := VideoOpening(t, c, d), VideoLines(t, c, d);
    assert |o| == 15;
    assert forall i :: 0 <= i < 15 ==> lines[i] == o[i];
  }

  lemma InjectSplit(o: seq<string>, rest: seq<string>, first: string, second: string)
    requires |o| > 1 && CleanLines(o) && CleanLines(rest) && Clean(first) && Clean(second)
    requires StartsWith(o[|o| - 1], MID_PREFIX) && forall i :: 0 <= i < |o| - 1 ==> !StartsWith(o[i], MID_PREFIX)
    ensures var text := Join(o + rest, CRLF);
            && Contains(text, CRLF) && Split(text, CRLF) == o + rest
            && Split(Join(InjectedLines(Split(text, CRLF), first, second), CRLF), CRLF) == o + [first, second] + rest
  {
    CleanLinesCat(o, rest);
    CleanLinesCat(o, [first, second]);
    CleanLinesCat(o + [first, second], rest);
    JoinedHasCrlf(o + rest);
    CleanSplits(o + rest);
    InjectedAfterOpening(o, rest, first, second);
    CleanSplits(o + [first, second] + rest);
  }

  lemma InjectedAfterOpening(o: seq<string>, rest: seq<string>, first: string, second: string)
    requires o != [] && StartsWith(o[|o| - 1], MID_PREFIX)
    requires forall i :: 0 <= i < |o| - 1 ==> !StartsWith(o[i], MID_PREFIX)
    ensures InjectedLines(o + rest, first, second) == o + [first, second] + rest
  {
    var init := o[..|o| - 1];
    FirstMidIsLast(init, o[|o| - 1]);
    assert init + [o[|o| - 1]] + rest == o + rest;
  }
}
