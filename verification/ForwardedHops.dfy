/**
 What the router sends on: the client's `Forwarded` elements, each as a header line of its
 own, and then an element for this hop.
 */
module ForwardedHops {
  import opened Wrappers
  import opened Text
  import opened Forwarded
  import opened ForwardedRoundTrip
  import opened ForwardedExact

  /** The `Forwarded` branch of `get_existing_forwarded_headers`: one malformed line is an error. */
  function ParseLines(lines: seq<string>): Option<seq<Element>> {
    if lines == [] then Some([])
    else
      var first, rest := Parse(lines[0]), ParseLines(lines[1..]);
      if first.Some? && rest.Some? then Some(first.value + rest.value) else None
  }

  /** `create_forwarded_header_to_tgt` */
  function OwnElement(localIp: string, clientIp: string, host: Option<string>, proto: string): Element {
    Element(Some(localIp), Some(clientIp), host, Some(proto), None)
  }

  /** The text of the router's own element: its own address as `by`, the client's as `for`. */
  lemma OwnLine(localIp: string, clientIp: string, host: Option<string>, proto: string)
    ensures Print(OwnElement(localIp, clientIp, host, proto))
         == "by=" + Quote(localIp) + ";for=" + Quote(clientIp)
            + (if host.Some? then ";host=" + Quote(host.value) else "") + ";proto=" + Quote(proto)
  {
    hide Quote;
    var b, f, p := Param("by", localIp), Param("for", clientIp), Param("proto", proto);
    var ps := Params(OwnElement(localIp, clientIp, host, proto));
    if host.Some? {
      var h := Param("host", host.value);
      assert ps == [b, f, h, p];
      assert ps[1..] == [f, h, p] && ps[1..][1..] == [h, p] && ps[1..][1..][1..] == [p];
      assert PrintParams([h, p]) == PrintParam(h) + ";" + PrintParams([h, p][1..]);
      assert PrintParams([f, h, p]) == PrintParam(f) + ";" + PrintParams([f, h, p][1..]);
    } else {
      assert ps == [b, f, p];
      assert ps[1..] == [f, p] && ps[1..][1..] == [p];
      assert PrintParams([f, p]) == PrintParam(f) + ";" + PrintParams([f, p][1..]);
    }
  }

  /** The characters `HeaderValue::from_str` accepts. */
  predicate ValidHeaderValue(s: string) {
    forall c :: c in s ==> (c as int >= 32 && c as int != 127) || c == '\t'
  }

  /** What `HeaderValue::to_str` lets through. */
  predicate Visible(s: string) {
    forall c :: c in s ==> 32 <= c as int < 127 || c == '\t'
  }

  function PrintAll(es: seq<Element>): (lines: seq<string>)
    ensures |lines| == |es|
    ensures forall i :: 0 <= i < |es| ==> lines[i] == Print(es[i])
  {
    if es == [] then [] else [Print(es[0])] + PrintAll(es[1..])
  }

  function OnlyValid(lines: seq<string>): seq<string> {
    if lines == [] then []
    else if ValidHeaderValue(lines[0]) then [lines[0]] + OnlyValid(lines[1..])
    else OnlyValid(lines[1..])
  }

  /**
   `get_existing_forwarded_headers`; `legacy` is what the `X-Forwarded-*` headers give, which
   is asked for only when there is no `Forwarded` line.
   */
  function Existing(clientLines: seq<string>, legacy: Option<seq<Element>>): Option<seq<Element>> {
    if clientLines == [] then legacy else ParseLines(clientLines)
  }

  /** The `Forwarded` lines that `set_forwarded_headers` adds; None when it fails and adds none. */
  function ForwardedLines(existing: Option<seq<Element>>, discard: bool, own: Element): Option<seq<string>> {
    if discard then Some(OnlyValid([Print(own)]))
    else
      if existing.None? then None
      else Some(OnlyValid(PrintAll(existing.value)) + OnlyValid([Print(own)]))
  }

  // ---------------------------------------------------------------------------------------
  // A line that starts with a parameter gives an element with a parameter
  // ---------------------------------------------------------------------------------------

  lemma {:induction false} InsertNonEmpty(ps: seq<Param>, q: Param)
    ensures Insert(ps, q) != []
  {
  }

  lemma StoreHasParams(e: Element, name: string, v: string)
    ensures HasParams(Store(e, name, v))
  {
    InsertNonEmpty(Extensions(e), Param(Lower(name), v));
    var e' := Store(e, name, v);
    assert |Opt("by", e'.byValue)| > 0 || |Opt("for", e'.forValue)| > 0 || |Opt("host", e'.host)| > 0
        || |Opt("proto", e'.proto)| > 0 || |Extensions(e')| > 0;
  }

  ghost predicate Started(s: State) {
    s.inValue || HasParams(s.element)
  }

  lemma TurnStarted(c: char, last: char, s: State)
    requires Started(s) && Turn(c, last, s).Continue?
    ensures Started(Turn(c, last, s).state)
  {
    hide HasParams;
    StoreHasParams(s.element, s.name, s.buffer);
  }

  lemma {:induction false} RestStarted(cs: string, last: char, s: State)
    requires Started(s) && Rest(cs, last, s).Some?
    ensures var es := Rest(cs, last, s).value; es != [] && HasParams(es[0])
    decreases |cs|
  {
    hide Turn, HasParams, Elements;
    StoreHasParams(s.element, s.name, s.buffer);
    if cs != [] && Turn(cs[0], last, s).Continue? {
      TurnStarted(cs[0], last, s);
      RestStarted(cs[1..], cs[0], Turn(cs[0], last, s).state);
    }
  }

  /** A printed element begins with a name and an equals sign. */
  lemma StartsWithName(e: Element) returns (name: string, more: string)
    requires WellFormed(e) && HasParams(e)
    ensures Token(name) && Print(e) == name + "=" + more
  {
    NamesAreTokens(e);
    hide Token, WellFormed;
    var ps := Params(e);
    name := ps[0].name;
    more := Quote(ps[0].value) + if |ps| == 1 then [] else ";" + PrintParams(ps[1..]);
  }

  lemma FirstHasParams(e: Element)
    requires WellFormed(e) && HasParams(e) && Elements(Print(e)).Some?
    ensures var es := Elements(Print(e)).value; es != [] && HasParams(es[0])
  {
    hide Rest, HasParams, Print, WellFormed;
    var name, more := StartsWithName(e);
    ElementsIsRest(Print(e));
    ReadName(name, more, ',', START);
    RestStarted(more, '=', START.(inValue := true, name := [] + name, buffer := []));
  }

  // ---------------------------------------------------------------------------------------
  // Single elements
  // ---------------------------------------------------------------------------------------

  /** An element comes first in the parse of its own text only if it has no backslash. */
  lemma OwnTextFirst(e: Element)
    requires WellFormed(e) && HasParams(e) && Elements(Print(e)).Some?
    requires Elements(Print(e)).value != [] && Elements(Print(e)).value[0] == e
    ensures Each(e, NoBackslash) && Elements(Print(e)).value == [e]
  {
    hide Elements, Each, Print, WellFormed, HasParams;
    ElementsProducible(Print(e));
    HaltsElement(e, []);
    assert Print(e) + [] == Print(e);
    ElementsClean(Print(e));
    CleanIsPrintable(e);
    HasParamsMeans(e);
    ReadLast(e);
    StripExactly(e);
  }

  lemma HasParamsMeans(e: Element)
    requires HasParams(e)
    ensures Params(e) != []
  {
  }

  lemma SingleLine(e: Element)
    ensures Parse(Print(e)) == Elements(Print(e))
    ensures !HasParams(e) ==> Parse(Print(e)) == Some([])
  {
    assert Join([e], "," + "") == Print(e);
    ParseIsElements([e], "");
  }

  lemma GoodLine(e: Element)
    requires WellFormed(e) && HasParams(e) && Each(e, NoBackslash)
    ensures Parse(Print(e)) == Some([e])
  {
    hide Parse, Elements, WellFormed, HasParams, Each, Print;
    RoundTripExactly([e], "");
    assert Join([e], "," + "") == Print(e);
  }

  // ---------------------------------------------------------------------------------------
  // The lines of a hop
  // ---------------------------------------------------------------------------------------

  ghost predicate AllWellFormed(es: seq<Element>) {
    forall i :: 0 <= i < |es| ==> WellFormed(es[i])
  }

  ghost predicate AllHaveParams(es: seq<Element>) {
    forall i :: 0 <= i < |es| ==> HasParams(es[i])
  }

  /** Lines of elements never begin with an element without parameters. */
  lemma {:induction false} LinesStart(es: seq<Element>)
    requires AllWellFormed(es) && ParseLines(PrintAll(es)).Some?
    ensures var r := ParseLines(PrintAll(es)).value; r != [] ==> HasParams(r[0])
    decreases |es|
  {
    hide Parse, WellFormed, HasParams, Print, Elements;
    if es != [] {
      assert PrintAll(es)[1..] == PrintAll(es[1..]);
      SingleLine(es[0]);
      if HasParams(es[0]) {
        FirstHasParams(es[0]);
      } else {
        LinesStart(es[1..]);
      }
    }
  }

  lemma {:induction false} LinesReturn(es: seq<Element>)
    requires AllWellFormed(es) && AllHaveParams(es) && EachOf(es, NoBackslash)
    ensures ParseLines(PrintAll(es)) == Some(es)
    decreases |es|
  {
    hide Parse, WellFormed, HasParams, Print, Each;
    if es != [] {
      assert PrintAll(es)[1..] == PrintAll(es[1..]);
      GoodLine(es[0]);
      LinesReturn(es[1..]);
      assert [es[0]] + es[1..] == es;
    }
  }

  lemma {:induction false} LinesReturnOnlyIf(es: seq<Element>)
    requires AllWellFormed(es) && ParseLines(PrintAll(es)) == Some(es)
    ensures AllHaveParams(es) && EachOf(es, NoBackslash)
    decreases |es|
  {
    hide Parse, WellFormed, HasParams, Print, Each, Elements;
    if es != [] {
      LinesStart(es);
      SingleLine(es[0]);
      assert PrintAll(es)[1..] == PrintAll(es[1..]);
      FirstHasParams(es[0]);
      var first := Parse(Print(es[0])).value;
      assert first[0] == es[0];
      OwnTextFirst(es[0]);
      assert ParseLines(PrintAll(es[1..])).value == es[1..];
      LinesReturnOnlyIf(es[1..]);
    }
  }

  // ---------------------------------------------------------------------------------------
  // Every line is a valid header value
  // ---------------------------------------------------------------------------------------

  ghost predicate VisibleState(s: State) {
    Each(s.element, Visible) && Visible(s.buffer)
  }

  lemma TurnVisible(c: char, last: char, s: State)
    requires VisibleState(s) && Visible([c]) && Turn(c, last, s).Continue?
    ensures VisibleState(Turn(c, last, s).state)
  {
    hide Each, Store;
    assert c in [c];
    if s.inValue && !s.quoted && c == ';' { StoreEach(s.element, s.name, s.buffer, Visible); }
  }

  lemma VisibleParts(cs: string)
    requires cs != [] && Visible(cs)
    ensures Visible([cs[0]]) && Visible(cs[1..])
  {
    assert cs[0] in cs;
    forall c | c in cs[1..]
      ensures c in cs
    {
      var k :| 0 <= k < |cs[1..]| && cs[1..][k] == c;
      assert cs[k + 1] == c;
    }
  }

  lemma {:induction false} RestVisible(cs: string, last: char, s: State)
    requires VisibleState(s) && Visible(cs) && Rest(cs, last, s).Some?
    ensures EachOf(Rest(cs, last, s).value, Visible)
    decreases |cs|, 0
  {
    hide Turn, Each, Store;
    if s.inValue { StoreEach(s.element, s.name, s.buffer, Visible); }
    if cs != [] {
      VisibleParts(cs);
      hide Visible, VisibleState;
      if Turn(cs[0], last, s).Continue? {
        TurnVisible(cs[0], last, s);
        RestVisible(cs[1..], cs[0], Turn(cs[0], last, s).state);
      } else if Turn(cs[0], last, s).EndElement? {
        ElementsVisible(cs[1..]);
      }
    }
  }

  lemma {:induction false} ElementsVisible(cs: string)
    requires Visible(cs)
    ensures Elements(cs).Some? ==> EachOf(Elements(cs).value, Visible)
    decreases |cs|, 1
  {
    if cs != [] && Elements(cs).Some? {
      assert VisibleState(START);
      hide Rest, Each, VisibleState;
      ElementsIsRest(cs);
      RestVisible(cs, ',', START);
    }
  }

  lemma {:induction false} EscapeVisible(v: string)
    requires Visible(v)
    ensures Visible(Escape(v))
  {
    if v != [] {
      VisibleParts(v);
      EscapeVisible(v[1..]);
    }
  }

  lemma ConcatVisible(a: string, b: string)
    requires Visible(a) && Visible(b)
    ensures Visible(a + b)
  {
  }

  lemma TokenVisible(s: string)
    requires Token(s)
    ensures Visible(s)
  {
    forall c | c in s
      ensures 32 <= c as int < 127
    {
      TCharOnly(c);
    }
  }

  lemma ParamVisible(p: Param)
    requires Token(p.name) && Visible(p.value)
    ensures Visible(PrintParam(p))
  {
    hide Token;
    EscapeVisible(p.value);
    TokenVisible(p.name);
    hide Visible;
    PunctuationVisible();
    ConcatVisible("\"", Escape(p.value));
    ConcatVisible("\"" + Escape(p.value), "\"");
    ConcatVisible(p.name, "=");
    ConcatVisible(p.name + "=", Quote(p.value));
  }

  lemma PunctuationVisible()
    ensures Visible("\"") && Visible("=") && Visible(";")
  {
  }

  lemma {:induction false} ParamsVisible(ps: seq<Param>)
    requires EachParam(ps, Visible) && forall i :: 0 <= i < |ps| ==> Token(ps[i].name)
    ensures Visible(PrintParams(ps))
    decreases |ps|
  {
    hide Token, PrintParam;
    if ps != [] {
      ParamVisible(ps[0]);
      PunctuationVisible();
      ParamsVisible(ps[1..]);
      hide Visible;
      ConcatVisible(PrintParam(ps[0]), ";");
      ConcatVisible(PrintParam(ps[0]) + ";", PrintParams(ps[1..]));
    }
  }

  lemma ElementVisible(e: Element)
    requires WellFormed(e) && Each(e, Visible)
    ensures ValidHeaderValue(Print(e))
  {
    NamesAreTokens(e);
    ParamsOfEach(e, Visible);
    ParamsVisible(Params(e));
  }

  lemma {:induction false} AllValid(es: seq<Element>)
    requires AllWellFormed(es) && EachOf(es, Visible)
    ensures OnlyValid(PrintAll(es)) == PrintAll(es)
    decreases |es|
  {
    hide WellFormed, Each, Print, ValidHeaderValue;
    if es != [] {
      ElementVisible(es[0]);
      assert PrintAll(es)[1..] == PrintAll(es[1..]);
      AllValid(es[1..]);
    }
  }

  lemma {:induction false} ParsedLines(lines: seq<string>)
    requires ParseLines(lines).Some? && forall i :: 0 <= i < |lines| ==> Visible(lines[i])
    ensures AllWellFormed(ParseLines(lines).value) && EachOf(ParseLines(lines).value, Visible)
    decreases |lines|
  {
    hide WellFormed, Each, Visible, Elements;
    if lines != [] {
      ParsedIsWellFormed(lines[0]);
      ElementsVisible(lines[0]);
      ParsedLines(lines[1..]);
    }
  }

  lemma OwnIsGood(localIp: string, clientIp: string, host: Option<string>, proto: string, p: string -> bool)
    ensures var own := OwnElement(localIp, clientIp, host, proto);
      && WellFormed(own) && HasParams(own)
      && (Each(own, p) <==> p(localIp) && p(clientIp) && (host.Some? ==> p(host.value)) && p(proto))
  {
  }

  /** Elements made from `X-Forwarded-*` headers have no extensions. */
  ghost predicate Plain(es: seq<Element>) {
    forall i :: 0 <= i < |es| ==> es[i].extensions.None?
  }

  lemma PlainIsWellFormed(es: seq<Element>)
    requires Plain(es)
    ensures AllWellFormed(es)
  {
    forall i | 0 <= i < |es|
      ensures WellFormed(es[i])
    {
      assert Extensions(es[i]) == [];
    }
  }

  ghost predicate ClientSent(lines: seq<string>, legacy: Option<seq<Element>>) {
    && Existing(lines, legacy).Some?
    && (forall i :: 0 <= i < |lines| ==> Visible(lines[i]))
    && (legacy.Some? ==> Plain(legacy.value) && EachOf(legacy.value, Visible))
  }

  lemma ExistingIsGood(lines: seq<string>, legacy: Option<seq<Element>>)
    requires ClientSent(lines, legacy)
    ensures AllWellFormed(Existing(lines, legacy).value) && EachOf(Existing(lines, legacy).value, Visible)
  {
    if lines == [] {
      PlainIsWellFormed(legacy.value);
    } else {
      ParsedLines(lines);
    }
  }

  /** The lines sent are the client's elements and the router's own, printed. */
  lemma SentLines(client: seq<Element>, own: Element)
    requires AllWellFormed(client) && EachOf(client, Visible) && WellFormed(own) && Each(own, Visible)
    ensures AllWellFormed(client + [own])
    ensures ForwardedLines(Some(client), false, own) == Some(PrintAll(client + [own]))
  {
    AllWellFormedLast(client, own);
    hide AllWellFormed, WellFormed, EachOf, Each, Print, OnlyValid, Visible, PrintAll;
    AllValid(client);
    AllValidOne(own);
    PrintAllLast(client, own);
  }

  lemma AllWellFormedLast(client: seq<Element>, own: Element)
    requires AllWellFormed(client) && WellFormed(own)
    ensures AllWellFormed(client + [own])
  {
    hide WellFormed;
  }

  lemma AllValidOne(e: Element)
    requires WellFormed(e) && Each(e, Visible)
    ensures OnlyValid([Print(e)]) == [Print(e)]
  {
    hide Print, WellFormed, Each;
    ElementVisible(e);
  }

  lemma PrintAllLast(client: seq<Element>, own: Element)
    ensures PrintAll(client) + [Print(own)] == PrintAll(client + [own])
  {
    hide Print;
  }

  lemma LinesReturnExactly(es: seq<Element>)
    requires AllWellFormed(es)
    ensures ParseLines(PrintAll(es)) == Some(es) <==> AllHaveParams(es) && EachOf(es, NoBackslash)
  {
    hide ParseLines, AllWellFormed, AllHaveParams, EachOf;
    if ParseLines(PrintAll(es)) == Some(es) { LinesReturnOnlyIf(es); }
    if AllHaveParams(es) && EachOf(es, NoBackslash) { LinesReturn(es); }
  }

  lemma LastOf(client: seq<Element>, own: Element)
    ensures AllHaveParams(client + [own]) <==> AllHaveParams(client) && HasParams(own)
    ensures EachOf(client + [own], NoBackslash) <==> EachOf(client, NoBackslash) && Each(own, NoBackslash)
  {
    hide HasParams, Each;
    var es := client + [own];
    assert es[|client|] == own;
    assert forall i :: 0 <= i < |client| ==> es[i] == client[i];
  }

  /**
   Hop append, exactly: when the client's elements can be read and are not discarded, the lines
   sent to the target parse to those elements in order followed by the router's own, if and
   only if every client element has a parameter and no value has a backslash.
   */
  lemma HopAppendExactly(lines: seq<string>, legacy: Option<seq<Element>>,
                         localIp: string, clientIp: string, host: Option<string>, proto: string)
    requires ClientSent(lines, legacy)
    requires Each(OwnElement(localIp, clientIp, host, proto), Visible)
    ensures var client, own := Existing(lines, legacy).value, OwnElement(localIp, clientIp, host, proto);
      var sent := ForwardedLines(Some(client), false, own);
      && sent.Some? && |sent.value| == |client| + 1
      && (ParseLines(sent.value) == Some(client + [own])
          <==> AllHaveParams(client) && EachOf(client, NoBackslash) && Each(own, NoBackslash))
  {
    ExistingIsGood(lines, legacy);
    var client, own := Existing(lines, legacy).value, OwnElement(localIp, clientIp, host, proto);
    OwnIsGood(localIp, clientIp, host, proto, Visible);
    hide *;
    SentLines(client, own);
    LinesReturnExactly(client + [own]);
    LastOf(client, own);
  }
}
