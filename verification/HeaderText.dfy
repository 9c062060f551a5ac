/**
 The text form of headers in the Cranker protocol: how the router prints the headers of a
 request, and how it reads the header text of a response.
 */
module HeaderText {
  import opened Wrappers
  import opened Text

  datatype Header = Header(name: string, value: string)

  // ---------------------------------------------------------------------------------------
  // Printing
  // ---------------------------------------------------------------------------------------

  predicate IsCookie(h: Header) {
    Lower(h.name) == "cookie"
  }

  predicate NotCookie(h: Header) {
    !IsCookie(h)
  }

  function Filter(hs: seq<Header>, p: Header -> bool): seq<Header> {
    if hs == [] then [] else if p(hs[0]) then [hs[0]] + Filter(hs[1..], p) else Filter(hs[1..], p)
  }

  function Values(hs: seq<Header>): seq<string> {
    if hs == [] then [] else [hs[0].value] + Values(hs[1..])
  }

  function JoinCookies(vs: seq<string>): string {
    if vs == [] then [] else if |vs| == 1 then vs[0] else vs[0] + "; " + JoinCookies(vs[1..])
  }

  /** The headers in order, with all cookies in one header at the end (section 8.1.2.5 of RFC 7540). */
  function Merged(hs: seq<Header>): seq<Header> {
    var cookies := Values(Filter(hs, IsCookie));
    Filter(hs, NotCookie) + if cookies == [] then [] else [Header("cookie", JoinCookies(cookies))]
  }

  function Line(h: Header): string {
    h.name + ":" + h.value
  }

  function Lines(hs: seq<Header>): (ls: seq<string>)
    ensures |ls| == |hs|
  {
    if hs == [] then [] else [Line(hs[0])] + Lines(hs[1..])
  }

  function PrintAll(hs: seq<Header>): string {
    if hs == [] then [] else Line(hs[0]) + "\n" + PrintAll(hs[1..])
  }

  lemma {:induction false} PrintAllConcat(a: seq<Header>, b: seq<Header>)
    ensures PrintAll(a + b) == PrintAll(a) + PrintAll(b)
    decreases |a|
  {
    if a == [] {
      assert a + b == b;
    } else {
      assert (a + b)[1..] == a[1..] + b;
      PrintAllConcat(a[1..], b);
    }
  }

  lemma {:induction false} FilterPush(hs: seq<Header>, h: Header, p: Header -> bool)
    ensures Filter(hs + [h], p) == if p(h) then Filter(hs, p) + [h] else Filter(hs, p)
    decreases |hs|
  {
    if hs == [] {
      assert hs + [h] == [h];
    } else {
      assert (hs + [h])[1..] == hs[1..] + [h];
      FilterPush(hs[1..], h, p);
    }
  }

  lemma {:induction false} ValuesPush(hs: seq<Header>, h: Header)
    ensures Values(hs + [h]) == Values(hs) + [h.value]
    decreases |hs|
  {
    if hs == [] {
      assert hs + [h] == [h];
    } else {
      assert (hs + [h])[1..] == hs[1..] + [h];
      ValuesPush(hs[1..], h);
    }
  }

  lemma {:induction false} CookiesPush(vs: seq<string>, v: string)
    ensures JoinCookies(vs + [v]) == if vs == [] then v else JoinCookies(vs) + "; " + v
    decreases |vs|
  {
    if vs == [] {
      assert vs + [v] == [v];
    } else {
      assert (vs + [v])[1..] == vs[1..] + [v];
      CookiesPush(vs[1..], v);
      if |vs| > 1 {
        assert vs[0] + "; " + (JoinCookies(vs[1..]) + "; " + v) == vs[0] + "; " + JoinCookies(vs[1..]) + "; " + v;
      }
    }
  }

  lemma PrintPush(hs: seq<Header>, h: Header)
    ensures PrintAll(hs + [h]) == PrintAll(hs) + Line(h) + "\n"
  {
    PrintAllConcat(hs, [h]);
    PrintOne(h);
    hide PrintAll, Line;
    assert PrintAll(hs) + (Line(h) + "\n") == PrintAll(hs) + Line(h) + "\n";
  }

  lemma MergedText(hs: seq<Header>)
    ensures var plain, cookies := Filter(hs, NotCookie), Values(Filter(hs, IsCookie));
      PrintAll(Merged(hs))
      == if cookies == [] then PrintAll(plain) else PrintAll(plain) + "cookie:" + JoinCookies(cookies) + "\n"
  {
    var plain, cookies := Filter(hs, NotCookie), Values(Filter(hs, IsCookie));
    hide Filter, Values, JoinCookies, PrintAll;
    if cookies == [] {
      assert plain + [] == plain;
    } else {
      var h := Header("cookie", JoinCookies(cookies));
      PrintPush(plain, h);
      assert "cookie" + ":" == "cookie:";
      assert PrintAll(plain) + "cookie:" + h.value == PrintAll(plain) + Line(h);
    }
  }

  /** `build_header_str`, over the headers whose values are readable text. */
  method BuildHeaderStr(headers: seq<Header>) returns (text: string)
    ensures text == PrintAll(Merged(headers))
  {
    text := "";
    var cookies: seq<string> := [];
    for i := 0 to |headers|
      invariant text == PrintAll(Filter(headers[..i], NotCookie))
      invariant cookies == Values(Filter(headers[..i], IsCookie))
    {
      var h := headers[i];
      hide IsCookie, Filter, Values, PrintAll, Line;
      assert headers[..i + 1] == headers[..i] + [h];
      FilterPush(headers[..i], h, NotCookie);
      FilterPush(headers[..i], h, IsCookie);
      if IsCookie(h) {
        ValuesPush(Filter(headers[..i], IsCookie), h);
        cookies := cookies + [h.value];
      } else {
        PrintPush(Filter(headers[..i], NotCookie), h);
        text := text + Line(h) + "\n";
      }
    }
    assert headers[..|headers|] == headers;
    MergedText(headers);
    hide Filter, Values, PrintAll, Merged;
    if cookies != [] {
      var all := JoinAll(cookies);
      text := text + "cookie:" + all + "\n";
    }
  }

  lemma PrintOne(h: Header)
    ensures PrintAll([h]) == Line(h) + "\n"
  {
  }

  method JoinAll(vs: seq<string>) returns (r: string)
    ensures r == JoinCookies(vs)
  {
    r := "";
    for i := 0 to |vs|
      invariant r == JoinCookies(vs[..i])
    {
      assert vs[..i + 1] == vs[..i] + [vs[i]];
      CookiesPush(vs[..i], vs[i]);
      r := if i == 0 then vs[i] else r + "; " + vs[i];
    }
    assert vs[..|vs|] == vs;
  }

  // ---------------------------------------------------------------------------------------
  // The message that opens a request
  // ---------------------------------------------------------------------------------------

  datatype EndMarker = RequestBodyPending | RequestHasNoBody | RequestBodyEnded

  function MarkerText(m: EndMarker): string {
    match m
    case RequestBodyPending => "_1"
    case RequestHasNoBody => "_2"
    case RequestBodyEnded => "_3"
  }

  /** `CrankerProtocolRequestBuilder::build`; None stands for an error. */
  function BuildRequest(line: Option<string>, headers: Option<string>, marker: Option<EndMarker>): Option<string> {
    if marker.None? then None
    else if line.Some? && headers.Some? then Some(line.value + "\n" + headers.value + "\n" + MarkerText(marker.value))
    else if marker.value.RequestBodyEnded? then Some(MarkerText(marker.value))
    else None
  }

  // ---------------------------------------------------------------------------------------
  // Reading
  // ---------------------------------------------------------------------------------------

  datatype Response = Response(headers: seq<string>, status: nat)

  predicate IsDigit(c: char) {
    '0' <= c <= '9'
  }

  function Number(s: string): nat
    requires forall i :: 0 <= i < |s| ==> IsDigit(s[i])
  {
    if s == [] then 0 else assert IsDigit(s[|s| - 1]); 10 * Number(s[..|s| - 1]) + (s[|s| - 1] as int - '0' as int)
  }

  predicate AllDigits(s: string) {
    forall i :: 0 <= i < |s| ==> IsDigit(s[i])
  }

  /** `u16::from_str` */
  function ParseU16(s: string): Option<nat> {
    var digits := if s != [] && s[0] == '+' then s[1..] else s;
    if digits == [] || !AllDigits(digits) || Number(digits) > 65535 then None else Some(Number(digits))
  }

  function Decimal(n: nat): (s: string)
    ensures s != [] && forall i :: 0 <= i < |s| ==> IsDigit(s[i])
  {
    var last := ['0' + (n % 10) as char];
    if n < 10 then last else Decimal(n / 10) + last
  }

  lemma {:induction false} NumberOfDecimal(n: nat)
    ensures Number(Decimal(n)) == n
    decreases n
  {
    var s := Decimal(n);
    assert s[|s| - 1] as int - '0' as int == n % 10;
    if n >= 10 {
      NumberOfDecimal(n / 10);
      assert s[..|s| - 1] == Decimal(n / 10);
    } else {
      assert s[..|s| - 1] == [];
    }
  }

  /** A number in decimal is read as itself exactly when it fits 16 bits. */
  lemma StatusIsRead(n: nat)
    ensures ParseU16(Decimal(n)) == if n <= 65535 then Some(n) else None
    ensures ParseU16("+" + Decimal(n)) == if n <= 65535 then Some(n) else None
  {
    NumberOfDecimal(n);
    hide Number;
    assert IsDigit(Decimal(n)[0]);
    assert ("+" + Decimal(n))[1..] == Decimal(n);
  }

  /** Anything else than digits, after an optional plus sign, is an error. */
  lemma BadStatusRefused(s: string, i: nat)
    requires i < |s| && !IsDigit(s[i]) && !(i == 0 && s[0] == '+')
    ensures ParseU16(s) == None
  {
    if s[0] == '+' {
      assert !IsDigit(s[1..][i - 1]) && !AllDigits(s[1..]);
    }
  }

  function NonEmpty(ls: seq<string>): seq<string> {
    if ls == [] then [] else (if ls[0] == [] then [] else [ls[0]]) + NonEmpty(ls[1..])
  }

  /** `CrankerProtocolResponse::try_from_string` */
  function TryFromString(text: string): Option<Response> {
    var lines := Split(text, '\n');
    var bits := Split(lines[0], ' ');
    if |bits| < 2 then None
    else
      var status := ParseU16(bits[1]);
      if status.None? then None else Some(Response(NonEmpty(lines[1..]), status.value))
  }

  function TrimStart(s: string): string {
    if s != [] && IsWhitespace(s[0]) then TrimStart(s[1..]) else s
  }

  function TrimEnd(s: string): string {
    if s != [] && IsWhitespace(s[|s| - 1]) then TrimEnd(s[..|s| - 1]) else s
  }

  function Trim(s: string): string {
    TrimEnd(TrimStart(s))
  }

  const HOP_BY_HOP: set<string> :=
    {"keep-alive", "transfer-encoding", "te", "connection", "trailer", "upgrade", "proxy-authorization",
     "proxy-authenticate"}

  predicate SentBack(h: Header) {
    Lower(h.name) !in HOP_BY_HOP && Lower(h.name) != "server"
  }

  /** One header line; None when it has no colon. */
  function ReadLine(l: string): Option<Header> {
    var i := IndexOf(l, ':');
    if i == |l| then None else Some(Header(Trim(l[..i]), Trim(l[i + 1..])))
  }

  /** The headers of a response; None stands for an error. */
  function ReadHeaders(ls: seq<string>): Option<seq<Header>> {
    if ls == [] then Some([])
    else
      var h, rest := ReadLine(ls[0]), ReadHeaders(ls[1..]);
      if h.None? || rest.None? then None
      else Some(if SentBack(h.value) then [h.value] + rest.value else rest.value)
  }

  ghost function Extend(res: seq<Header>, rest: Option<seq<Header>>): Option<seq<Header>> {
    if rest.None? then None else Some(res + rest.value)
  }

  lemma ReadStep(res: seq<Header>, ls: seq<string>)
    requires ls != []
    ensures var h := ReadLine(ls[0]);
      && (h.None? ==> Extend(res, ReadHeaders(ls)) == None)
      && (h.Some? && SentBack(h.value) ==>
            Extend(res, ReadHeaders(ls)) == Extend(res + [h.value], ReadHeaders(ls[1..])))
      && (h.Some? && !SentBack(h.value) ==> Extend(res, ReadHeaders(ls)) == Extend(res, ReadHeaders(ls[1..])))
  {
    hide ReadLine, SentBack;
    var h, rest := ReadLine(ls[0]), ReadHeaders(ls[1..]);
    if h.Some? && rest.Some? {
      assert res + ([h.value] + rest.value) == res + [h.value] + rest.value;
    }
  }

  /** A response whose first line has no second word, or not a number there, is an error. */
  lemma BadFirstLineRefused(line: string, rest: string)
    requires '\n' !in line && (' ' !in line || |Split(line, ' ')| < 2 || ParseU16(Split(line, ' ')[1]).None?)
    ensures TryFromString(line + ['\n'] + rest) == None
  {
    if ' ' !in line { SplitNone(line, ' '); }
    SplitConcat(line, '\n', rest);
    hide ParseU16, Split, NonEmpty;
  }

  /** One line without a colon makes the whole response an error. */
  lemma {:induction false} BadLineRefused(ls: seq<string>, i: nat)
    requires i < |ls| && ':' !in ls[i]
    ensures ReadHeaders(ls) == None
    decreases |ls|
  {
    hide Trim, SentBack;
    if i == 0 {
      IndexOfIs(ls[0], ':', |ls[0]|);
    } else {
      BadLineRefused(ls[1..], i - 1);
    }
  }

  /** `CrankerProtocolResponse::build`, the headers it adds to the response. */
  method Build(response: Response) returns (r: Option<seq<Header>>)
    ensures r == ReadHeaders(response.headers)
  {
    var ls := response.headers;
    var res: seq<Header> := [];
    assert ls[0..] == ls;
    assert ReadHeaders(ls).Some? ==> [] + ReadHeaders(ls).value == ReadHeaders(ls).value;
    for i := 0 to |ls|
      invariant ReadHeaders(ls) == Extend(res, ReadHeaders(ls[i..]))
    {
      assert ls[i..][0] == ls[i] && ls[i..][1..] == ls[i + 1..];
      hide ReadHeaders, Trim;
      ReadStep(res, ls[i..]);
      var colon := IndexOf(ls[i], ':');
      if colon == |ls[i]| {
        return None;
      }
      var key := Trim(ls[i][..colon]);
      var value := Trim(ls[i][colon + 1..]);
      if Lower(key) !in HOP_BY_HOP && Lower(key) != "server" {
        res := res + [Header(key, value)];
      }
    }
    assert ls[|ls|..] == [] && res + [] == res;
    return Some(res);
  }

  // ---------------------------------------------------------------------------------------
  // Round trip
  // ---------------------------------------------------------------------------------------

  ghost predicate Trimmed(s: string) {
    s == [] || (!IsWhitespace(s[0]) && !IsWhitespace(s[|s| - 1]))
  }

  /** A header of an HTTP message: a token for a name, and a value of one trimmed line. */
  ghost predicate GoodHeader(h: Header) {
    h.name != [] && Token(h.name) && '\n' !in h.value && Trimmed(h.value)
  }

  ghost predicate AllGood(hs: seq<Header>) {
    forall i :: 0 <= i < |hs| ==> GoodHeader(hs[i])
  }

  /** What can be printed on a line and read again: everything but the trimming. */
  ghost predicate OneLine(h: Header) {
    h.name != [] && Token(h.name) && '\n' !in h.value
  }

  ghost predicate AllOneLine(hs: seq<Header>) {
    forall i :: 0 <= i < |hs| ==> OneLine(hs[i])
  }

  lemma TrimOfTrimmed(s: string)
    requires Trimmed(s)
    ensures Trim(s) == s
  {
    hide IsWhitespace;
  }

  lemma TCharPlain(c: char)
    requires IsTChar(c)
    ensures c != '\n' && c != ':' && !IsWhitespace(c)
  {
  }

  lemma TokenPlain(s: string)
    requires Token(s)
    ensures '\n' !in s && ':' !in s && Trimmed(s)
  {
    hide IsTChar, IsWhitespace;
    forall i | 0 <= i < |s|
      ensures s[i] != '\n' && s[i] != ':' && !IsWhitespace(s[i])
    {
      assert s[i] in s;
      TCharPlain(s[i]);
    }
  }

  lemma {:induction false} FilterOneLine(hs: seq<Header>, p: Header -> bool)
    requires AllOneLine(hs)
    ensures AllOneLine(Filter(hs, p))
    decreases |hs|
  {
    hide OneLine;
    if hs != [] { FilterOneLine(hs[1..], p); }
  }

  lemma {:induction false} CookiesOneLine(vs: seq<string>)
    requires forall i :: 0 <= i < |vs| ==> '\n' !in vs[i]
    ensures '\n' !in JoinCookies(vs)
    decreases |vs|
  {
    if |vs| > 1 { CookiesOneLine(vs[1..]); }
  }

  lemma {:induction false} ValuesOneLine(hs: seq<Header>)
    requires AllOneLine(hs)
    ensures forall i :: 0 <= i < |Values(hs)| ==> '\n' !in Values(hs)[i]
    decreases |hs|
  {
    if hs != [] { ValuesOneLine(hs[1..]); }
  }

  lemma MergedOneLine(hs: seq<Header>)
    requires AllOneLine(hs)
    ensures AllOneLine(Merged(hs))
  {
    FilterOneLine(hs, NotCookie);
    FilterOneLine(hs, IsCookie);
    ValuesOneLine(Filter(hs, IsCookie));
    CookiesOneLine(Values(Filter(hs, IsCookie)));
    hide Filter, Values, JoinCookies;
    assert OneLine(Header("cookie", JoinCookies(Values(Filter(hs, IsCookie)))));
  }

  lemma LineIsOneLine(h: Header)
    requires OneLine(h)
    ensures '\n' !in Line(h) && Line(h) != []
  {
    TokenPlain(h.name);
  }

  lemma PrintCons(hs: seq<Header>, rest: string)
    requires hs != []
    ensures PrintAll(hs) + rest == Line(hs[0]) + ['\n'] + (PrintAll(hs[1..]) + rest)
  {
    hide Line;
  }

  lemma LinesCons(hs: seq<Header>, rest: seq<string>)
    requires hs != []
    ensures Lines(hs) + rest == [Line(hs[0])] + (Lines(hs[1..]) + rest)
  {
    hide Line;
  }

  lemma {:induction false} SplitPrinted(hs: seq<Header>, rest: string)
    requires AllOneLine(hs)
    ensures Split(PrintAll(hs) + rest, '\n') == Lines(hs) + Split(rest, '\n')
    decreases |hs|
  {
    if hs == [] {
      assert PrintAll(hs) + rest == rest;
      assert Lines(hs) + Split(rest, '\n') == Split(rest, '\n');
    } else {
      LineIsOneLine(hs[0]);
      PrintCons(hs, rest);
      LinesCons(hs, Split(rest, '\n'));
      hide OneLine, Line, Split, PrintAll, Lines;
      SplitConcat(Line(hs[0]), '\n', PrintAll(hs[1..]) + rest);
      SplitPrinted(hs[1..], rest);
    }
  }

  lemma {:induction false} NonEmptyLines(hs: seq<Header>)
    requires AllOneLine(hs)
    ensures NonEmpty(Lines(hs) + [""]) == Lines(hs)
    decreases |hs|
  {
    if hs == [] {
      assert Lines(hs) + [""] == [""];
    } else {
      LineIsOneLine(hs[0]);
      hide OneLine, Line;
      assert (Lines(hs) + [""])[1..] == Lines(hs[1..]) + [""];
      NonEmptyLines(hs[1..]);
    }
  }

  /** A header line is read as the name and the trimmed value. */
  lemma ReadPrinted(h: Header)
    requires OneLine(h)
    ensures ReadLine(Line(h)) == Some(Header(h.name, Trim(h.value)))
  {
    TokenPlain(h.name);
    hide Trim, Token, IsWhitespace, Trimmed;
    assert Line(h) == h.name + [':'] + h.value;
    IndexOfConcat(h.name, ':', h.value);
    assert Line(h)[..|h.name|] == h.name && Line(h)[|h.name| + 1..] == h.value;
    TrimOfTrimmed(h.name);
  }

  function TrimValues(hs: seq<Header>): (r: seq<Header>)
    ensures |r| == |hs|
  {
    if hs == [] then [] else [Header(hs[0].name, Trim(hs[0].value))] + TrimValues(hs[1..])
  }

  lemma {:induction false} ReadPrintedAll(hs: seq<Header>)
    requires AllOneLine(hs)
    ensures ReadHeaders(Lines(hs)) == Some(Filter(TrimValues(hs), SentBack))
    decreases |hs|
  {
    if hs != [] {
      ReadPrinted(hs[0]);
      hide OneLine, Line, Trim, ReadLine, SentBack;
      assert Lines(hs)[1..] == Lines(hs[1..]);
      ReadPrintedAll(hs[1..]);
      assert TrimValues(hs)[1..] == TrimValues(hs[1..]);
    }
  }

  /** The headers of a response that are not sent back to the client, in any case of letters. */
  lemma SentBackExactly(h: Header)
    ensures SentBack(h) <==>
      Lower(h.name) !in {"keep-alive", "transfer-encoding", "te", "connection", "trailer", "upgrade",
                         "proxy-authorization", "proxy-authenticate", "server"}
  {
    hide Lower;
  }

  /**
   Header text round trip: a status line followed by the printed headers is read as its status
   and the merged headers, one line each; and the response built from it has exactly those,
   with trimmed values, whose names are not hop-by-hop and not `server`.
   */
  lemma RoundTrip(statusLine: string, hs: seq<Header>)
    requires AllOneLine(hs) && '\n' !in statusLine
    requires |Split(statusLine, ' ')| >= 2 && ParseU16(Split(statusLine, ' ')[1]).Some?
    ensures var text := statusLine + "\n" + PrintAll(Merged(hs));
      && TryFromString(text) == Some(Response(Lines(Merged(hs)), ParseU16(Split(statusLine, ' ')[1]).value))
      && ReadHeaders(Lines(Merged(hs))) == Some(Filter(TrimValues(Merged(hs)), SentBack))
  {
    var all := Merged(hs);
    MergedOneLine(hs);
    hide Merged, OneLine, ParseU16;
    ReadPrintedAll(all);
    NonEmptyLines(all);
    SplitPrinted(all, "");
    assert PrintAll(all) + "" == PrintAll(all);
    assert statusLine + "\n" + PrintAll(all) == statusLine + ['\n'] + PrintAll(all);
    SplitNone("", '\n');
    SplitConcat(statusLine, '\n', PrintAll(all));
    hide PrintAll, Lines, Split;
    assert ([statusLine] + (Lines(all) + [""]))[1..] == Lines(all) + [""];
  }

  lemma {:induction false} TrimStartShorter(s: string)
    ensures |TrimStart(s)| <= |s| && (s != [] && IsWhitespace(s[0]) ==> |TrimStart(s)| < |s|)
    decreases |s|
  {
    hide IsWhitespace;
    if s != [] && IsWhitespace(s[0]) { TrimStartShorter(s[1..]); }
  }

  lemma {:induction false} TrimEndShorter(s: string)
    ensures |TrimEnd(s)| <= |s| && (s != [] && IsWhitespace(s[|s| - 1]) ==> |TrimEnd(s)| < |s|)
    decreases |s|
  {
    hide IsWhitespace;
    if s != [] && IsWhitespace(s[|s| - 1]) { TrimEndShorter(s[..|s| - 1]); }
  }

  lemma TrimFixes(s: string)
    ensures Trim(s) == s <==> Trimmed(s)
  {
    TrimStartShorter(s);
    TrimEndShorter(TrimStart(s));
    if Trimmed(s) { TrimOfTrimmed(s); }
    hide IsWhitespace;
  }

  lemma {:induction false} TrimStartIs(s: string)
    ensures exists a :: Blank(a) && s == a + TrimStart(s)
    ensures TrimStart(s) == [] || !IsWhitespace(TrimStart(s)[0])
    decreases |s|
  {
    hide IsWhitespace;
    if s != [] && IsWhitespace(s[0]) {
      TrimStartIs(s[1..]);
      var a :| Blank(a) && s[1..] == a + TrimStart(s[1..]);
      assert Blank([s[0]] + a) && s == [s[0]] + a + TrimStart(s);
    } else {
      assert Blank([]) && s == [] + s;
    }
  }

  lemma {:induction false} TrimEndIs(s: string)
    ensures exists b :: Blank(b) && s == TrimEnd(s) + b
    ensures TrimEnd(s) == [] || (!IsWhitespace(TrimEnd(s)[|TrimEnd(s)| - 1]) && TrimEnd(s)[0] == s[0])
    decreases |s|
  {
    hide IsWhitespace;
    if s != [] && IsWhitespace(s[|s| - 1]) {
      TrimEndIs(s[..|s| - 1]);
      var b :| Blank(b) && s[..|s| - 1] == TrimEnd(s[..|s| - 1]) + b;
      assert Blank(b + [s[|s| - 1]]) && s == TrimEnd(s) + (b + [s[|s| - 1]]);
    } else {
      assert Blank([]) && s == s + [];
    }
  }

  /** Trimming takes blanks off both ends, and all of them. */
  lemma TrimIs(s: string)
    ensures Trimmed(Trim(s)) && exists a, b :: Blank(a) && Blank(b) && s == a + Trim(s) + b
  {
    TrimStartIs(s);
    TrimEndIs(TrimStart(s));
    hide IsWhitespace;
    var a :| Blank(a) && s == a + TrimStart(s);
    var b :| Blank(b) && TrimStart(s) == Trim(s) + b;
    assert s == a + Trim(s) + b;
  }

  lemma JoinedEnds(vs: seq<string>)
    requires |vs| > 1
    ensures var j, v := JoinCookies(vs), vs[|vs| - 1];
      && j != [] && j[0] == (if vs[0] == [] then ';' else vs[0][0])
      && j[|j| - 1] == if v == [] then ' ' else v[|v| - 1]
  {
    var init, v := vs[..|vs| - 1], vs[|vs| - 1];
    assert JoinCookies(vs) == vs[0] + "; " + JoinCookies(vs[1..]);
    assert vs == init + [v];
    CookiesPush(init, v);
    hide JoinCookies;
  }

  /** Joined cookies need no trimming unless the last of several is empty. */
  lemma CookiesTrimmed(vs: seq<string>)
    requires vs != [] && forall i :: 0 <= i < |vs| ==> Trimmed(vs[i])
    ensures Trimmed(JoinCookies(vs)) <==> |vs| == 1 || vs[|vs| - 1] != []
  {
    if |vs| > 1 {
      JoinedEnds(vs);
      hide JoinCookies;
    }
  }

  lemma {:induction false} TrimValuesFixes(hs: seq<Header>)
    ensures TrimValues(hs) == hs <==> forall i :: 0 <= i < |hs| ==> Trimmed(hs[i].value)
    decreases |hs|
  {
    if hs != [] {
      TrimFixes(hs[0].value);
      TrimValuesFixes(hs[1..]);
      hide Trim, Trimmed;
      assert hs == [hs[0]] + hs[1..];
    }
  }

  lemma {:induction false} FilterGood(hs: seq<Header>, p: Header -> bool)
    requires AllGood(hs)
    ensures AllGood(Filter(hs, p))
    decreases |hs|
  {
    hide GoodHeader;
    if hs != [] { FilterGood(hs[1..], p); }
  }

  lemma {:induction false} ValuesGood(hs: seq<Header>)
    requires AllGood(hs)
    ensures forall i :: 0 <= i < |Values(hs)| ==> Trimmed(Values(hs)[i])
    decreases |hs|
  {
    if hs != [] { ValuesGood(hs[1..]); }
  }

  /**
   Trimmed values come back unchanged exactly when there are fewer than two cookies or the
   last cookie is not empty; otherwise the merged cookie loses its last blank.
   */
  lemma ValuesKeptExactly(hs: seq<Header>)
    requires AllGood(hs)
    ensures var cookies := Values(Filter(hs, IsCookie));
      TrimValues(Merged(hs)) == Merged(hs) <==> |cookies| < 2 || cookies[|cookies| - 1] != []
  {
    hide *;
    var plain, cookies := Filter(hs, NotCookie), Values(Filter(hs, IsCookie));
    FilterGood(hs, NotCookie);
    FilterGood(hs, IsCookie);
    ValuesGood(Filter(hs, IsCookie));
    MergedIs(hs);
    if cookies == [] {
      GoodFixes(plain);
    } else {
      CookiesTrimmed(cookies);
      LastFixes(plain, Header("cookie", JoinCookies(cookies)));
    }
  }

  lemma MergedIs(hs: seq<Header>)
    ensures var plain, cookies := Filter(hs, NotCookie), Values(Filter(hs, IsCookie));
      Merged(hs) == if cookies == [] then plain else plain + [Header("cookie", JoinCookies(cookies))]
  {
    hide Filter, Values, JoinCookies;
    assert Filter(hs, NotCookie) + [] == Filter(hs, NotCookie);
  }

  lemma GoodFixes(hs: seq<Header>)
    requires AllGood(hs)
    ensures TrimValues(hs) == hs
  {
    TrimValuesFixes(hs);
    hide TrimValues, Trimmed, Token;
  }

  lemma LastFixes(plain: seq<Header>, h: Header)
    requires AllGood(plain)
    ensures TrimValues(plain + [h]) == plain + [h] <==> Trimmed(h.value)
  {
    var all := plain + [h];
    TrimValuesFixes(all);
    hide TrimValues, Trimmed, Token;
    assert all[|plain|] == h;
    assert forall i :: 0 <= i < |plain| ==> all[i] == plain[i] && GoodHeader(plain[i]);
  }

  /** The message that opens a request is its line, its headers, an empty line and the marker. */
  lemma RequestText(line: string, hs: seq<Header>, marker: EndMarker)
    requires AllOneLine(hs) && '\n' !in line
    ensures var text := BuildRequest(Some(line), Some(PrintAll(Merged(hs))), Some(marker));
      text.Some? && Split(text.value, '\n') == [line] + Lines(Merged(hs)) + ["",
        if marker.RequestBodyPending? then "_1" else if marker.RequestHasNoBody? then "_2" else "_3"]
  {
    MergedOneLine(hs);
    hide Merged, OneLine, Split, Lines, PrintAll;
    MarkedText(line, Merged(hs), MarkerText(marker));
  }

  /** What can be built without them: the end of a body, and nothing else. */
  lemma MarkerAlone(line: Option<string>, headers: Option<string>, marker: Option<EndMarker>)
    requires line.None? || headers.None?
    ensures BuildRequest(line, headers, marker) == if marker == Some(RequestBodyEnded) then Some("_3") else None
    ensures BuildRequest(line, headers, None) == None
  {
  }

  lemma MarkedText(line: string, all: seq<Header>, mark: string)
    requires AllOneLine(all) && '\n' !in line && '\n' !in mark
    ensures Split(line + "\n" + PrintAll(all) + "\n" + mark, '\n') == [line] + Lines(all) + ["", mark]
  {
    MarkSplit(mark);
    SplitPrinted(all, "\n" + mark);
    hide PrintAll, Lines, Split, OneLine;
    SplitConcat(line, '\n', PrintAll(all) + ("\n" + mark));
    MarkedAssoc(line, PrintAll(all), mark, Lines(all));
  }

  lemma MarkSplit(mark: string)
    requires '\n' !in mark
    ensures Split("\n" + mark, '\n') == ["", mark]
  {
    SplitNone(mark, '\n');
    SplitConcat([], '\n', mark);
    assert [] + ['\n'] + mark == "\n" + mark;
  }

  lemma MarkedAssoc(line: string, text: string, mark: string, lines: seq<string>)
    ensures line + "\n" + text + "\n" + mark == line + ['\n'] + (text + ("\n" + mark))
    ensures [line] + (lines + ["", mark]) == [line] + lines + ["", mark]
  {
  }
}
