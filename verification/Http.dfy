/** src/http/request.cc, src/http/response.cc and include/lotta/http/headers.h: the request parser
    over a buffer, the response printer and the ordered header list. The message format is that of
    section 3 of RFC 7230, as far as the code follows it. */
module Http {
  import opened Strings
  import opened Buffers

  datatype Method = OPTIONS | GET | HEAD | POST | PUT | DELETE | TRACE | CONNECT
  datatype Version = V09 | V10 | V11 | V20 | V30
  type Header = (string, string)

  const CRLF := "\r\n"
  const SP := " "
  const COLON := ": "

  function MethodName(m: Method): string {
    match m
    case OPTIONS => "OPTIONS" case GET => "GET" case HEAD => "HEAD" case POST => "POST"
    case PUT => "PUT" case DELETE => "DELETE" case TRACE => "TRACE" case CONNECT => "CONNECT"
  }

  /** The chain of comparisons on the method slice. */
  function MethodOf(s: string): Option<Method> {
    if s == "GET" then Some(GET)
    else if s == "POST" then Some(POST)
    else if s == "PUT" then Some(PUT)
    else if s == "DELETE" then Some(DELETE)
    else if s == "OPTIONS" then Some(OPTIONS)
    else if s == "HEAD" then Some(HEAD)
    else if s == "TRACE" then Some(TRACE)
    else if s == "CONNECT" then Some(CONNECT)
    else None
  }

  function VersionName(v: Version): string {
    match v
    case V09 => "0.9" case V10 => "1.0" case V11 => "1.1" case V20 => "2.0" case V30 => "3.0"
  }

  /** The first five bytes of the version slice are skipped unread. A shorter slice makes the
      length wrap, so that no comparison can succeed. */
  function VersionOf(s: string): Option<Version> {
    if |s| < 5 then None
    else if s[5..] == "0.9" then Some(V09)
    else if s[5..] == "1.0" then Some(V10)
    else if s[5..] == "1.1" then Some(V11)
    else if s[5..] == "2.0" then Some(V20)
    else if s[5..] == "3.0" then Some(V30)
    else None
  }

  /** The fields of a request; a failed parse leaves those filled in that it had got to. */
  datatype Fields = Fields(verb: Method, path: string, version: Version, headers: seq<Header>, body: string)

  const FRESH := Fields(GET, "/", V11, [], "")

  /** `ok` is false where the parser throws BadRequestException; `rest` is the unread input. */
  datatype Parse = Parse(fields: Fields, rest: string, ok: bool)
  datatype HeaderParse = HeaderParse(headers: seq<Header>, rest: string, ok: bool)

  function HeaderOf(line: string): Option<Header> {
    var k := Find(line, COLON);
    if k == |line| then None else Some((line[..k], line[k + 2..]))
  }

  /** The header loop. It ends at an empty line, and also where no line end is left. */
  function ReadHeaders(view: string, sofar: seq<Header>): (r: HeaderParse)
    ensures |r.rest| <= |view|
    decreases |view|
  {
    var p := Cut(view, CRLF);
    if p.slice == "" then HeaderParse(sofar, p.rest, true)
    else match HeaderOf(p.slice)
         case None => HeaderParse(sofar, p.rest, false)
         case Some(h) => ReadHeaders(p.rest, sofar + [h])
  }

  function ReadVerb(f: Fields, view: string): Parse {
    var p := Cut(view, SP);
    match MethodOf(p.slice)
    case None => Parse(f, p.rest, false)
    case Some(verb) => Parse(f.(verb := verb), p.rest, true)
  }

  function ReadPath(f: Fields, view: string): Parse {
    var p := Cut(view, SP);
    if p.slice == "" then Parse(f, p.rest, false) else Parse(f.(path := p.slice), p.rest, true)
  }

  function ReadVersion(f: Fields, view: string): Parse {
    var p := Cut(view, CRLF);
    match VersionOf(p.slice)
    case None => Parse(f, p.rest, false)
    case Some(version) => Parse(f.(version := version), p.rest, true)
  }

  function ReadFieldsAndBody(f: Fields, view: string): Parse {
    var h := ReadHeaders(view, f.headers);
    if h.ok then Parse(f.(headers := h.headers, body := h.rest), "", true)
    else Parse(f.(headers := h.headers), h.rest, false)
  }

  /** readBuffer: four stages, each only if the one before did not throw. */
  function ReadRequest(f: Fields, view: string): Parse {
    var m := ReadVerb(f, view);
    if !m.ok then m else
    var p := ReadPath(m.fields, m.rest);
    if !p.ok then p else
    var v := ReadVersion(p.fields, p.rest);
    if !v.ok then v else
    ReadFieldsAndBody(v.fields, v.rest)
  }

  // The message on the wire

  function HeaderLine(h: Header): string { h.0 + COLON + h.1 }

  function PrintHeaders(hs: seq<Header>): string {
    if hs == [] then "" else HeaderLine(hs[0]) + CRLF + PrintHeaders(hs[1..])
  }

  function PrintRequest(f: Fields): string {
    MethodName(f.verb) + SP + (f.path + SP + ("HTTP/" + VersionName(f.version) + CRLF
      + (PrintHeaders(f.headers) + (CRLF + f.body))))
  }

  ghost predicate GoodPath(path: string) {
    path != "" && !Contains(path, SP)
  }

  ghost predicate GoodHeader(h: Header) {
    !Contains(h.0, COLON) && !Contains(HeaderLine(h), CRLF)
  }

  ghost predicate GoodHeaders(hs: seq<Header>) {
    forall h :: h in hs ==> GoodHeader(h)
  }

  // Request round trip

  lemma CrlfAcross(a: string, b: string)
    requires !Contains(a, CRLF) && !Contains(b, CRLF)
    requires a != "" && b != "" ==> a[|a| - 1] != '\r' || b[0] != '\n'
    ensures !Contains(a + b, CRLF)
  {
    forall i: nat
      ensures !OccursAt(a + b, CRLF, i)
    {
      if i + 2 <= |a| {
        assert (a + b)[i..i + 2] == a[i..i + 2];
        assert !OccursAt(a, CRLF, i);
      } else if i >= |a| && i + 2 <= |a + b| {
        assert (a + b)[i..i + 2] == b[i - |a|..i - |a| + 2];
        assert !OccursAt(b, CRLF, i - |a|);
      } else if i + 2 <= |a + b| {
        assert (a + b)[i..i + 2] == [a[|a| - 1], b[0]];
      }
    }
  }

  /** A header is good exactly if its name has no ": " and neither part has a line end. */
  lemma GoodHeaderIff(h: Header)
    ensures GoodHeader(h) <==> !Contains(h.0, COLON) && !Contains(h.0, CRLF) && !Contains(h.1, CRLF)
  {
    var line := HeaderLine(h);
    assert line[0..|h.0|] == h.0 && line[|h.0| + 2..|line|] == h.1;
    if !Contains(line, CRLF) {
      PartHasNone(line, CRLF, 0, |h.0|);
      PartHasNone(line, CRLF, |h.0| + 2, |line|);
    }
    if !Contains(h.0, CRLF) && !Contains(h.1, CRLF) {
      FirstCharMissing(COLON, CRLF);
      CrlfAcross(h.0, COLON);
      assert (h.0 + COLON)[|h.0| + 1] == ' ';
      CrlfAcross(h.0 + COLON, h.1);
    }
  }

  lemma HeaderOfPrinted(h: Header)
    requires !Contains(h.0, COLON)
    ensures HeaderOf(HeaderLine(h)) == Some(h)
  {
    FindPrinted(h.0, COLON, h.1);
    var line := HeaderLine(h);
    assert line[..|h.0|] == h.0 && line[|h.0| + 2..] == h.1;
  }

  /** One round of the header loop. */
  lemma ReadOneHeader(line: string, more: string, sofar: seq<Header>)
    requires line != "" && !Contains(line, CRLF) && HeaderOf(line).Some?
    ensures ReadHeaders(line + CRLF + more, sofar) == ReadHeaders(more, sofar + [HeaderOf(line).value])
  {
    CutPrinted(line, CRLF, more);
  }

  /** What may follow the printed headers: an empty line and the body, or a body without line end. */
  ghost predicate IsEnd(end: string, body: string) {
    end == CRLF + body || (end == body && !Contains(body, CRLF))
  }

  lemma ReadEnd(end: string, body: string, sofar: seq<Header>)
    requires IsEnd(end, body)
    ensures ReadHeaders(end, sofar) == HeaderParse(sofar, body, true)
  {
    if end == CRLF + body {
      CutPrinted("", CRLF, body);
      assert "" + CRLF + body == end;
    }
  }

  lemma PrintedHead(hs: seq<Header>, rest: string)
    requires hs != []
    ensures PrintHeaders(hs) + rest == HeaderLine(hs[0]) + CRLF + (PrintHeaders(hs[1..]) + rest)
  {
  }

  lemma ReadPrintedHead(hs: seq<Header>, rest: string, sofar: seq<Header>)
    requires hs != [] && GoodHeaders(hs)
    ensures ReadHeaders(PrintHeaders(hs) + rest, sofar)
         == ReadHeaders(PrintHeaders(hs[1..]) + rest, sofar + [hs[0]])
  {
    assert GoodHeader(hs[0]);
    PrintedHead(hs, rest);
    HeaderOfPrinted(hs[0]);
    ReadOneHeader(HeaderLine(hs[0]), PrintHeaders(hs[1..]) + rest, sofar);
  }

  lemma MoveHead<T>(a: seq<T>, b: seq<T>)
    requires b != []
    ensures a + [b[0]] + b[1..] == a + b
  {
  }

  /** Printed headers are read back, whichever way the message goes on. */
  lemma {:induction false} HeadersPrinted(hs: seq<Header>, end: string, body: string, sofar: seq<Header>)
    requires GoodHeaders(hs) && IsEnd(end, body)
    ensures ReadHeaders(PrintHeaders(hs) + end, sofar) == HeaderParse(sofar + hs, body, true)
    decreases hs
  {
    if hs == [] {
      ReadEnd(end, body, sofar);
      assert PrintHeaders(hs) + end == end;
      assert sofar + hs == sofar;
    } else {
      ReadPrintedHead(hs, end, sofar);
      HeadersPrinted(hs[1..], end, body, sofar + [hs[0]]);
      MoveHead(sofar, hs);
    }
  }

  lemma MethodPrinted(m: Method)
    ensures MethodOf(MethodName(m)) == Some(m) && !Contains(MethodName(m), SP)
  {
    FirstCharMissing(MethodName(m), SP);
  }

  /** Any five bytes may stand before the version number. */
  lemma VersionPrinted(five: string, v: Version)
    requires |five| == 5
    ensures VersionOf(five + VersionName(v)) == Some(v)
  {
    assert (five + VersionName(v))[5..] == VersionName(v);
  }

  lemma HttpVersion(v: Version)
    ensures !Contains("HTTP/" + VersionName(v), CRLF)
  {
    FirstCharMissing("HTTP/" + VersionName(v), CRLF);
  }

  // What the parser accepts

  lemma HeaderOfSound(line: string)
    requires HeaderOf(line).Some? && !Contains(line, CRLF)
    ensures HeaderLine(HeaderOf(line).value) == line && GoodHeader(HeaderOf(line).value)
  {
    var k := Find(line, COLON);
    assert OccursAt(line, COLON, k);
    PrefixBeforeMatch(line, COLON, k);
    assert line == line[..k] + line[k..k + 2] + line[k + 2..];
  }

  /** The input is these headers printed, and such an end. */
  ghost predicate HeaderInput(view: string, hs: seq<Header>, rest: string) {
    view == PrintHeaders(hs) + (CRLF + rest) || (view == PrintHeaders(hs) + rest && !Contains(rest, CRLF))
  }

  lemma HeaderInputMore(view: string, line: string, more: string, h: Header, hs: seq<Header>, rest: string)
    requires HeaderLine(h) == line && view == line + CRLF + more && HeaderInput(more, hs, rest)
    ensures HeaderInput(view, [h] + hs, rest)
  {
  }

  lemma HeaderInputEnd(view: string)
    requires Cut(view, CRLF).slice == ""
    ensures HeaderInput(view, [], Cut(view, CRLF).rest)
  {
  }

  /** The header loop returns good headers, and its input was those headers printed, then either
      an empty line or a part without any line end. */
  lemma {:induction false} ReadHeadersSound(view: string, sofar: seq<Header>) returns (hs: seq<Header>)
    requires ReadHeaders(view, sofar).ok
    ensures ReadHeaders(view, sofar).headers == sofar + hs && GoodHeaders(hs)
    ensures HeaderInput(view, hs, ReadHeaders(view, sofar).rest)
    decreases |view|
  {
    var p := Cut(view, CRLF);
    if p.slice == "" {
      hs := [];
      assert sofar + hs == sofar;
      HeaderInputEnd(view);
    } else {
      CutSplits(view, CRLF);
      var h := HeaderOf(p.slice).value;
      HeaderOfSound(p.slice);
      var more := ReadHeadersSound(p.rest, sofar + [h]);
      hs := [h] + more;
      MoveHead(sofar, hs);
      HeaderInputMore(view, p.slice, p.rest, h, more, ReadHeaders(view, sofar).rest);
    }
  }

  lemma MethodOfSound(s: string)
    requires MethodOf(s).Some?
    ensures s == MethodName(MethodOf(s).value)
  {
  }

  /** The start line and headers with any five bytes before the version number and any end. */
  function PrintLoosely(f: Fields, five: string, end: string): string {
    MethodName(f.verb) + SP + (f.path + SP + (five + VersionName(f.version) + CRLF
      + (PrintHeaders(f.headers) + end)))
  }

  /** A message that carries these fields in the parser's own, looser sense of the format: any five
      bytes stand before the version number, and the empty line may be missing if no line end
      follows the last header. */
  ghost predicate Carries(view: string, f: Fields, five: string, end: string) {
    && GoodPath(f.path) && GoodHeaders(f.headers) && IsEnd(end, f.body)
    && |five| == 5 && !Contains(five + VersionName(f.version), CRLF)
    && view == PrintLoosely(f, five, end)
  }

  lemma StartLineRead(before: Fields, f: Fields, five: string, end: string)
    requires GoodPath(f.path) && |five| == 5 && !Contains(five + VersionName(f.version), CRLF)
    ensures ReadRequest(before, PrintLoosely(f, five, end))
         == ReadFieldsAndBody(before.(verb := f.verb, path := f.path, version := f.version),
                              PrintHeaders(f.headers) + end)
  {
    var tail := PrintHeaders(f.headers) + end;
    var version := five + VersionName(f.version);
    var afterPath := version + CRLF + tail;
    var afterMethod := f.path + SP + afterPath;
    assert PrintLoosely(f, five, end) == MethodName(f.verb) + SP + afterMethod;
    MethodPrinted(f.verb);
    CutPrinted(MethodName(f.verb), SP, afterMethod);
    CutPrinted(f.path, SP, afterPath);
    VersionPrinted(five, f.version);
    CutPrinted(version, CRLF, tail);
  }

  /** A message is read into a request that may have been used before: its headers follow those already
      there, everything else is replaced. */
  lemma CarriedIsRead(before: Fields, view: string, f: Fields, five: string, end: string)
    requires Carries(view, f, five, end)
    ensures ReadRequest(before, view) == Parse(f.(headers := before.headers + f.headers), "", true)
  {
    StartLineRead(before, f, five, end);
    HeadersPrinted(f.headers, end, f.body, before.headers);
  }

  lemma CarriedIsAccepted(view: string, f: Fields, five: string, end: string)
    requires Carries(view, f, five, end)
    ensures ReadRequest(FRESH, view) == Parse(f, "", true)
  {
    CarriedIsRead(FRESH, view, f, five, end);
    assert [] + f.headers == f.headers;
  }

  lemma VersionOfSound(s: string)
    requires VersionOf(s).Some?
    ensures s == s[..5] + VersionName(VersionOf(s).value)
  {
  }

  /** The converse of the round trip: whatever the parser accepts carries the fields it returns. */
  lemma AcceptedIsPrinted(view: string) returns (five: string, end: string)
    ensures var r := ReadRequest(FRESH, view);
            r.ok ==> r.rest == "" && Carries(view, r.fields, five, end)
  {
    five, end := "", "";
    if !ReadRequest(FRESH, view).ok {
      return;
    }
    var f := ReadRequest(FRESH, view).fields;
    var m := Cut(view, SP);
    CutSplits(view, SP);
    MethodOfSound(m.slice);
    var p := Cut(m.rest, SP);
    CutSplits(m.rest, SP);
    var v := Cut(p.rest, CRLF);
    CutSplits(p.rest, CRLF);
    VersionOfSound(v.slice);
    five := v.slice[..5];
    end := HeaderEnd(v.rest, f.headers, f.body);
    Assemble(f, view, m, p, v, five, end);
  }

  lemma HeaderEnd(view: string, hs: seq<Header>, body: string) returns (end: string)
    requires ReadHeaders(view, []) == HeaderParse(hs, body, true)
    ensures GoodHeaders(hs) && view == PrintHeaders(hs) + end && IsEnd(end, body)
  {
    var gs := ReadHeadersSound(view, []);
    assert [] + gs == gs;
    end := if view == PrintHeaders(hs) + (CRLF + body) then CRLF + body else body;
  }

  lemma Assemble(f: Fields, view: string, m: Piece, p: Piece, v: Piece, five: string, end: string)
    requires m.slice == MethodName(f.verb) && view == m.slice + SP + m.rest
    requires p.slice == f.path && m.rest == p.slice + SP + p.rest
    requires v.slice == five + VersionName(f.version) && p.rest == v.slice + CRLF + v.rest
    requires v.rest == PrintHeaders(f.headers) + end
    ensures view == PrintLoosely(f, five, end)
  {
  }

  /** The method tokens, by which alone a method is recognised. */
  lemma MethodTokens(s: string)
    ensures MethodOf(s) ==
            if s == "OPTIONS" then Some(OPTIONS) else if s == "GET" then Some(GET)
            else if s == "HEAD" then Some(HEAD) else if s == "POST" then Some(POST)
            else if s == "PUT" then Some(PUT) else if s == "DELETE" then Some(DELETE)
            else if s == "TRACE" then Some(TRACE) else if s == "CONNECT" then Some(CONNECT)
            else None
  {
  }

  /** The version numbers, and how they are written. */
  lemma VersionTokens(five: string)
    requires |five| == 5
    ensures VersionOf(five + "0.9") == Some(V09) && VersionOf(five + "1.0") == Some(V10)
    ensures VersionOf(five + "1.1") == Some(V11) && VersionOf(five + "2.0") == Some(V20)
    ensures VersionOf(five + "3.0") == Some(V30)
  {
    VersionPrinted(five, V09);
    VersionPrinted(five, V10);
    VersionPrinted(five, V11);
    VersionPrinted(five, V20);
    VersionPrinted(five, V30);
  }

  // Where the parser throws

  /** It throws at an unknown method, or at a missing space, with only that token read. */
  lemma ThrowsAtMethod(f: Fields, view: string)
    requires MethodOf(Cut(view, SP).slice) == None
    ensures ReadRequest(f, view) == Parse(f, Cut(view, SP).rest, false)
  {
  }

  /** It throws at an empty path with the method and the two spaces read and stored. */
  lemma ThrowsAtPath(f: Fields, verb: Method, rest: string)
    requires Cut(rest, SP).slice == ""
    ensures ReadRequest(f, MethodName(verb) + SP + rest) == Parse(f.(verb := verb), Cut(rest, SP).rest, false)
  {
    MethodPrinted(verb);
    CutPrinted(MethodName(verb), SP, rest);
  }

  /** It throws at an unknown version, or a missing line end, with method and path stored. */
  lemma ThrowsAtVersion(f: Fields, verb: Method, path: string, rest: string)
    requires GoodPath(path) && VersionOf(Cut(rest, CRLF).slice) == None
    ensures ReadRequest(f, MethodName(verb) + SP + (path + SP + rest))
         == Parse(f.(verb := verb, path := path), Cut(rest, CRLF).rest, false)
  {
    MethodPrinted(verb);
    CutPrinted(MethodName(verb), SP, path + SP + rest);
    CutPrinted(path, SP, rest);
  }

  /** It throws at the first header line without ": ", with the lines before it stored and that line
      read. */
  lemma {:induction false} ThrowsAtHeader(hs: seq<Header>, line: string, rest: string, sofar: seq<Header>)
    requires GoodHeaders(hs) && line != "" && !Contains(line, CRLF) && !Contains(line, COLON)
    ensures ReadHeaders(PrintHeaders(hs) + (line + CRLF + rest), sofar) == HeaderParse(sofar + hs, rest, false)
    decreases hs
  {
    if hs == [] {
      CutPrinted(line, CRLF, rest);
      assert PrintHeaders(hs) + (line + CRLF + rest) == line + CRLF + rest;
      assert sofar + hs == sofar;
    } else {
      ReadPrintedHead(hs, line + CRLF + rest, sofar);
      ThrowsAtHeader(hs[1..], line, rest, sofar + [hs[0]]);
      MoveHead(sofar, hs);
    }
  }

  /** That is how the whole parser ends there, with the start line stored too. */
  lemma ThrowsAfterStartLine(before: Fields, f: Fields, five: string, line: string, rest: string)
    requires GoodPath(f.path) && |five| == 5 && !Contains(five + VersionName(f.version), CRLF)
    requires GoodHeaders(f.headers) && line != "" && !Contains(line, CRLF) && !Contains(line, COLON)
    ensures ReadRequest(before, PrintLoosely(f, five, line + CRLF + rest))
         == Parse(f.(headers := before.headers + f.headers, body := before.body), rest, false)
  {
    StartLineRead(before, f, five, line + CRLF + rest);
    ThrowsAtHeader(f.headers, line, rest, before.headers);
  }

  /** A new request asks for "/" with GET and HTTP/1.1 until something is read. */
  lemma NothingRead()
    ensures ReadRequest(FRESH, "") == Parse(Fields(GET, "/", V11, [], ""), "", false)
  {
  }

  /** The language of the parser, exactly: a message is accepted with these fields if and only if it
      carries them; whatever is accepted is read to its end. */
  lemma AcceptedIff(view: string, f: Fields)
    ensures ReadRequest(FRESH, view) == Parse(f, "", true) <==> exists five, end :: Carries(view, f, five, end)
    ensures ReadRequest(FRESH, view).ok ==> ReadRequest(FRESH, view).rest == ""
  {
    var five, end := AcceptedIsPrinted(view);
    if a, b :| Carries(view, f, a, b) {
      CarriedIsAccepted(view, f, a, b);
    }
  }

  const CUT_OFF := Fields(GET, "/", V11, [("Host", "a")], "Accept: te")

  lemma CutOffText()
    ensures PrintLoosely(CUT_OFF, "HTTP/", "Accept: te") == "GET / HTTP/1.1\r\nHost: a\r\nAccept: te"
  {
    var hs := [("Host", "a")];
    assert hs[1..] == [];
    assert PrintHeaders(hs) == "Host: a\r\n" + PrintHeaders([]);
    assert PrintHeaders(hs) + "Accept: te" == "Host: a\r\nAccept: te";
    assert "HTTP/" + VersionName(V11) + CRLF == "HTTP/1.1\r\n";
  }

  lemma CutOffCarries()
    ensures Carries(PrintLoosely(CUT_OFF, "HTTP/", "Accept: te"), CUT_OFF, "HTTP/", "Accept: te")
  {
    FirstCharMissing("/", SP);
    HttpVersion(V11);
    FirstCharMissing("Host", COLON);
    FirstCharMissing(HeaderLine(("Host", "a")), CRLF);
    FirstCharMissing("Accept: te", CRLF);
  }

  /** A message that is cut off in its second header line, without an empty line, is accepted: what is
      there of that line becomes the body. */
  lemma CutOffIsAccepted()
    ensures ReadRequest(FRESH, "GET / HTTP/1.1\r\nHost: a\r\nAccept: te") == Parse(CUT_OFF, "", true)
  {
    CutOffText();
    CutOffCarries();
    CarriedIsAccepted(PrintLoosely(CUT_OFF, "HTTP/", "Accept: te"), CUT_OFF, "HTTP/", "Accept: te");
  }

  /** Request round trip, exactly: parsing the printed fields gives them back, headers in order, and
      leaves nothing unread, if and only if the path is non-empty and without a space, no header
      name has ": " in it and no header has a line end in it. Any method, version and body do. */
  lemma RequestRoundTripIff(f: Fields)
    ensures ReadRequest(FRESH, PrintRequest(f)) == Parse(f, "", true)
            <==> GoodPath(f.path) && GoodHeaders(f.headers)
  {
    if GoodPath(f.path) && GoodHeaders(f.headers) {
      HttpVersion(f.version);
      CarriedIsAccepted(PrintRequest(f), f, "HTTP/", CRLF + f.body);
    }
    var five, end := AcceptedIsPrinted(PrintRequest(f));
  }

  // Responses

  datatype Status = OK | BadRequest | NotFound

  function StatusCode(s: Status): nat {
    match s case OK => 200 case BadRequest => 400 case NotFound => 404
  }

  function StatusMsg(s: Status): string {
    match s case OK => "OK" case BadRequest => "Bad Request" case NotFound => "Not Found"
  }

  function Get(hs: seq<Header>, key: string): string {
    if hs == [] then "" else if hs[0].0 == key then hs[0].1 else Get(hs[1..], key)
  }

  /** The first entry with the key gets the value; without one an entry is appended. */
  function Set(hs: seq<Header>, key: string, val: string): seq<Header> {
    if hs == [] then [(key, val)]
    else if hs[0].0 == key then [(key, val)] + hs[1..]
    else [hs[0]] + Set(hs[1..], key, val)
  }

  /** `set` changes the value of the first entry with the key and nothing else, or appends one, so
      that `get` finds the new value under this key and what it found before under any other. */
  lemma {:induction false} SetExact(hs: seq<Header>, key: string, val: string, i: nat)
    requires i <= |hs| && (forall k :: 0 <= k < i ==> hs[k].0 != key) && (i < |hs| ==> hs[i].0 == key)
    ensures Set(hs, key, val) == if i < |hs| then hs[i := (key, val)] else hs + [(key, val)]
    ensures forall other :: Get(Set(hs, key, val), other) == if other == key then val else Get(hs, other)
  {
    if hs != [] && hs[0].0 != key {
      SetExact(hs[1..], key, val, i - 1);
    }
  }

  /** `get` finds the first entry with the key, and the empty string without one. */
  lemma {:induction false} GetExact(hs: seq<Header>, key: string, i: nat)
    requires i <= |hs| && (forall k :: 0 <= k < i ==> hs[k].0 != key) && (i < |hs| ==> hs[i].0 == key)
    ensures Get(hs, key) == if i < |hs| then hs[i].1 else ""
  {
    if i > 0 {
      GetExact(hs[1..], key, i - 1);
    }
  }

  /** One round of the loop of `set`. */
  lemma SetFrom(hs: seq<Header>, i: nat, key: string, val: string)
    requires i < |hs|
    ensures hs[..i] + Set(hs[i..], key, val)
         == if hs[i].0 == key then hs[i := (key, val)] else hs[..i + 1] + Set(hs[i + 1..], key, val)
  {
    var rest := hs[i..];
    assert rest[0] == hs[i] && rest[1..] == hs[i + 1..];
    if hs[i].0 == key {
      assert hs[..i] + ([(key, val)] + rest[1..]) == hs[i := (key, val)];
    } else {
      assert hs[..i] + ([hs[i]] + Set(rest[1..], key, val)) == hs[..i + 1] + Set(rest[1..], key, val);
    }
  }

  datatype Response = Response(status: Status, headers: seq<Header>, body: string)

  const FRESH_RESPONSE := Response(OK, [("Connection", "Keep-Alive"), ("Content-Length", "0")], "")

  datatype Change = SetStatus(status: Status) | SetBody(body: string)

  function Apply(r: Response, c: Change): Response {
    match c
    case SetStatus(s) => r.(status := s)
    case SetBody(b) => r.(body := b, headers := Set(r.headers, "Content-Length", ToDecimal(|b|)))
  }

  function ApplyAll(r: Response, cs: seq<Change>): Response {
    if cs == [] then r else Apply(ApplyAll(r, cs[..|cs| - 1]), cs[|cs| - 1])
  }

  function StatusLine(s: Status): string {
    "HTTP/1.1 " + ToDecimal(StatusCode(s)) + " " + StatusMsg(s)
  }

  function PrintResponse(r: Response): string {
    StatusLine(r.status) + CRLF + (PrintHeaders(r.headers) + (CRLF + r.body))
  }

  lemma StatusLineIsOneLine(s: Status)
    ensures !Contains(StatusLine(s), CRLF)
  {
    assert forall c :: c in ToDecimal(StatusCode(s)) ==> IsDigit(c);
    FirstCharMissing(StatusLine(s), CRLF);
  }

  /** After any changes a response has its two headers, and Content-Length is the decimal of the
      body's length (section 3.3.2 of RFC 7230). */
  lemma {:induction false} ResponseHeaders(cs: seq<Change>)
    ensures var r := ApplyAll(FRESH_RESPONSE, cs);
            r.headers == [("Connection", "Keep-Alive"), ("Content-Length", ToDecimal(|r.body|))]
            && FromDecimal(Get(r.headers, "Content-Length")) == |r.body|
            && GoodHeaders(r.headers)
  {
    var r := ApplyAll(FRESH_RESPONSE, cs);
    if cs == [] {
      assert ToDecimal(0) == "0";
    } else {
      ResponseHeaders(cs[..|cs| - 1]);
      var q := ApplyAll(FRESH_RESPONSE, cs[..|cs| - 1]);
      if cs[|cs| - 1].SetBody? {
        assert q.headers[1..] == [("Content-Length", ToDecimal(|q.body|))];
        assert Set(q.headers[1..], "Content-Length", ToDecimal(|r.body|))
            == [("Content-Length", ToDecimal(|r.body|))];
      }
    }
    LengthHeader(r.headers, |r.body|);
  }

  lemma LengthHeader(hs: seq<Header>, n: nat)
    requires hs == [("Connection", "Keep-Alive"), ("Content-Length", ToDecimal(n))]
    ensures FromDecimal(Get(hs, "Content-Length")) == n && GoodHeaders(hs)
  {
    assert hs[1..][0] == ("Content-Length", ToDecimal(n));
    assert Get(hs, "Content-Length") == Get(hs[1..], "Content-Length") == ToDecimal(n);
    DecimalRoundTrip(n);
    forall h | h in hs
      ensures GoodHeader(h)
    {
      FirstCharMissing(h.0, COLON);
      FirstCharMissing(h.0, CRLF);
      assert forall c :: c in ToDecimal(n) ==> IsDigit(c);
      FirstCharMissing(h.1, CRLF);
      GoodHeaderIff(h);
    }
  }

  /** Response round trip: skipping the status line of the printed response and running the
      parser's header loop gives back the headers in order and exactly the body. */
  lemma ResponseRoundTrip(cs: seq<Change>)
    ensures var r := ApplyAll(FRESH_RESPONSE, cs);
            ReadHeaders(Cut(PrintResponse(r), CRLF).rest, []) == HeaderParse(r.headers, r.body, true)
  {
    var r := ApplyAll(FRESH_RESPONSE, cs);
    ResponseHeaders(cs);
    StatusLineIsOneLine(r.status);
    CutPrinted(StatusLine(r.status), CRLF, PrintHeaders(r.headers) + (CRLF + r.body));
    HeadersPrinted(r.headers, CRLF + r.body, r.body, []);
    assert [] + r.headers == r.headers;
  }

  /** The last of these changes, if there is any. */
  function LastStatus(cs: seq<Change>): Status {
    if cs == [] then OK
    else if cs[|cs| - 1].SetStatus? then cs[|cs| - 1].status
    else LastStatus(cs[..|cs| - 1])
  }

  function LastBody(cs: seq<Change>): string {
    if cs == [] then ""
    else if cs[|cs| - 1].SetBody? then cs[|cs| - 1].body
    else LastBody(cs[..|cs| - 1])
  }

  lemma {:induction false} LastChangesStand(cs: seq<Change>)
    ensures ApplyAll(FRESH_RESPONSE, cs).status == LastStatus(cs)
    ensures ApplyAll(FRESH_RESPONSE, cs).body == LastBody(cs)
    decreases cs
  {
    if cs != [] {
      LastChangesStand(cs[..|cs| - 1]);
    }
  }

  lemma TwoHundred()
    ensures ToDecimal(200) == "200"
  {
    assert ToDecimal(20) == ToDecimal(2) + "0";
    assert ToDecimal(200) == ToDecimal(20) + "0";
  }

  lemma FourHundred()
    ensures ToDecimal(400) == "400" && ToDecimal(404) == "404"
  {
    assert ToDecimal(40) == ToDecimal(4) + "0";
    assert ToDecimal(400) == ToDecimal(40) + "0";
    assert ToDecimal(404) == ToDecimal(40) + "4";
  }

  lemma StatusLines()
    ensures StatusLine(OK) == "HTTP/1.1 200 OK"
    ensures StatusLine(BadRequest) == "HTTP/1.1 400 Bad Request"
    ensures StatusLine(NotFound) == "HTTP/1.1 404 Not Found"
  {
    TwoHundred();
    FourHundred();
  }

  /** What is read back of a response is what was last set: the status on its first line, the body
      after its headers, and the body's length. */
  lemma ResponseReadBack(cs: seq<Change>)
    ensures var view := PrintResponse(ApplyAll(FRESH_RESPONSE, cs));
            Cut(view, CRLF).slice == StatusLine(LastStatus(cs))
            && var h := ReadHeaders(Cut(view, CRLF).rest, []);
               h.ok && h.rest == LastBody(cs) && FromDecimal(Get(h.headers, "Content-Length")) == |LastBody(cs)|
  {
    var r := ApplyAll(FRESH_RESPONSE, cs);
    LastChangesStand(cs);
    ResponseRoundTrip(cs);
    ResponseHeaders(cs);
    StatusLineIsOneLine(r.status);
    CutPrinted(StatusLine(r.status), CRLF, PrintHeaders(r.headers) + (CRLF + r.body));
  }

  // The objects

  class Headers {
    var data: seq<Header>

    constructor (data: seq<Header>)
      ensures this.data == data
    {
      this.data := data;
    }

    method GetValue(key: string) returns (val: string)
      ensures val == Get(data, key)
    {
      var i := 0;
      while i < |data|
        invariant 0 <= i <= |data| && Get(data[i..], key) == Get(data, key)
      {
        assert data[i..][1..] == data[i + 1..];
        if data[i].0 == key {
          return data[i].1;
        }
        i := i + 1;
      }
      return "";
    }

    method Append(key: string, val: string)
      modifies this
      ensures data == old(data) + [(key, val)]
    {
      data := data + [(key, val)];
    }

    method SetValue(key: string, val: string)
      modifies this
      ensures data == Set(old(data), key, val)
    {
      var i := 0;
      while i < |data|
        invariant 0 <= i <= |data| && data == old(data)
        invariant data[..i] + Set(data[i..], key, val) == Set(data, key, val)
      {
        SetFrom(data, i, key, val);
        if data[i].0 == key {
          data := data[i := (key, val)];
          return;
        }
        i := i + 1;
      }
      Append(key, val);
    }
  }

  class Request {
    var verb: Method
    var version: Version
    var path: string
    const headers: Headers
    var body: string

    ghost function Value(): Fields
      reads this, headers
    {
      Fields(verb, path, version, headers.data, body)
    }

    constructor ()
      ensures Value() == FRESH && fresh(headers)
    {
      verb, version, path, body := GET, V11, "/", "";
      headers := new Headers([]);
    }

    /** `ok` is false where the source throws; the buffer and the fields are then as far as the
        parser had got. */
    method ReadBuffer(buf: Buffer) returns (ok: bool)
      requires buf.Valid()
      modifies this, headers, buf`idx
      ensures buf.Valid()
      ensures Parse(Value(), buf.Value().View(), ok) == ReadRequest(old(Value()), old(buf.Value().View()))
    {
      ok := TakeVerb(buf);
      if !ok { return; }
      ok := TakePath(buf);
      if !ok { return; }
      ok := TakeVersion(buf);
      if !ok { return; }
      ok := TakeHeadersAndBody(buf);
    }

    method TakeVerb(buf: Buffer) returns (ok: bool)
      requires buf.Valid()
      modifies this`verb, buf`idx
      ensures buf.Valid()
      ensures Parse(Value(), buf.Value().View(), ok) == ReadVerb(old(Value()), old(buf.Value().View()))
    {
      var slice := buf.TakeUntil(SP);
      match MethodOf(slice) {
        case None => ok := false;
        case Some(m) => verb, ok := m, true;
      }
    }

    method TakePath(buf: Buffer) returns (ok: bool)
      requires buf.Valid()
      modifies this`path, buf`idx
      ensures buf.Valid()
      ensures Parse(Value(), buf.Value().View(), ok) == ReadPath(old(Value()), old(buf.Value().View()))
    {
      var slice := buf.TakeUntil(SP);
      ok := slice != "";
      if ok {
        path := slice;
      }
    }

    method TakeVersion(buf: Buffer) returns (ok: bool)
      requires buf.Valid()
      modifies this`version, buf`idx
      ensures buf.Valid()
      ensures Parse(Value(), buf.Value().View(), ok) == ReadVersion(old(Value()), old(buf.Value().View()))
    {
      var slice := buf.TakeUntil(CRLF);
      match VersionOf(slice) {
        case None => ok := false;
        case Some(v) => version, ok := v, true;
      }
    }

    method TakeHeadersAndBody(buf: Buffer) returns (ok: bool)
      requires buf.Valid()
      modifies this`body, headers, buf`idx
      ensures buf.Valid()
      ensures Parse(Value(), buf.Value().View(), ok) == ReadFieldsAndBody(old(Value()), old(buf.Value().View()))
    {
      ok := TakeHeaders(buf);
      if ok {
        body := buf.Take(buf.size - buf.idx);
      }
    }

    /** The header loop. */
    method TakeHeaders(buf: Buffer) returns (ok: bool)
      requires buf.Valid()
      modifies headers, buf`idx
      ensures buf.Valid()
      ensures HeaderParse(headers.data, buf.Value().View(), ok)
           == ReadHeaders(old(buf.Value().View()), old(headers.data))
    {
      ghost var goal := ReadHeaders(buf.Value().View(), headers.data);
      while true
        invariant buf.Valid()
        invariant ReadHeaders(buf.Value().View(), headers.data) == goal
        decreases |buf.Value().View()|
      {
        ReadHeadersByRounds(buf.Value().View(), headers.data);
        var done;
        done, ok := TakeHeader(buf);
        if done {
          return;
        }
      }
    }

    /** One round of the header loop: `done` when it leaves the loop, `ok` unless it throws. */
    method TakeHeader(buf: Buffer) returns (done: bool, ok: bool)
      requires buf.Valid()
      modifies headers, buf`idx
      ensures buf.Valid()
      ensures Round(done, HeaderParse(headers.data, buf.Value().View(), ok))
           == ReadRound(old(buf.Value().View()), old(headers.data))
    {
      var slice := buf.TakeUntil(CRLF);
      if slice == "" {
        return true, true;
      }
      var colon := Find(slice, COLON);
      if colon == |slice| {
        return true, false;
      }
      headers.Append(slice[..colon], slice[colon + 2..]);
      return false, true;
    }
  }

  datatype Round = Round(done: bool, parse: HeaderParse)

  function ReadRound(view: string, sofar: seq<Header>): Round {
    var p := Cut(view, CRLF);
    var k := Find(p.slice, COLON);
    if p.slice == "" then Round(true, HeaderParse(sofar, p.rest, true))
    else if k == |p.slice| then Round(true, HeaderParse(sofar, p.rest, false))
    else Round(false, HeaderParse(sofar + [(p.slice[..k], p.slice[k + 2..])], p.rest, true))
  }

  lemma ReadHeadersByRounds(view: string, sofar: seq<Header>)
    ensures var r := ReadRound(view, sofar);
            ReadHeaders(view, sofar) == (if r.done then r.parse else ReadHeaders(r.parse.rest, r.parse.headers))
            && (!r.done ==> |r.parse.rest| < |view|)
  {
  }

  lemma PrintEnd(s: string, line: string, data: seq<Header>, body: string)
    requires s + PrintHeaders([]) == line + PrintHeaders(data)
    ensures s + "\r\n" + body == line + (PrintHeaders(data) + (CRLF + body))
  {
    assert s + "" == s;
    assert s + "\r\n" + body == line + PrintHeaders(data) + (CRLF + body);
  }

  lemma PrintOne(s: string, data: seq<Header>, i: nat)
    requires i < |data|
    ensures s + data[i].0 + ": " + data[i].1 + "\r\n" + PrintHeaders(data[i + 1..]) == s + PrintHeaders(data[i..])
  {
  }

  class ResponseObject {
    var status: Status
    const headers: Headers
    var body: string

    ghost function Value(): Response
      reads this, headers
    {
      Response(status, headers.data, body)
    }

    constructor ()
      ensures Value() == FRESH_RESPONSE && fresh(headers)
    {
      status, body := OK, "";
      headers := new Headers([("Connection", "Keep-Alive"), ("Content-Length", "0")]);
    }

    method SetStatusTo(s: Status)
      modifies this
      ensures Value() == Apply(old(Value()), SetStatus(s))
    {
      status := s;
    }

    method SetBodyTo(b: string)
      modifies this, headers
      ensures Value() == Apply(old(Value()), SetBody(b))
    {
      body := b;
      headers.SetValue("Content-Length", ToDecimal(|b|));
    }

    method ToText() returns (s: string)
      ensures s == PrintResponse(Value())
    {
      var line := StatusLine(status) + CRLF;
      s := line;
      var i := 0;
      var data := headers.data;
      while i < |data|
        invariant 0 <= i <= |data| && s + PrintHeaders(data[i..]) == line + PrintHeaders(data)
      {
        PrintOne(s, data, i);
        s := s + data[i].0 + ": " + data[i].1 + "\r\n";
        i := i + 1;
      }
      assert data[i..] == [];
      PrintEnd(s, line, data, body);
      s := s + "\r\n" + body;
    }
  }
}
