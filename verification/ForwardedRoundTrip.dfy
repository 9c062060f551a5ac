/**
 What parsing a printed list of `Forwarded` elements gives, and exactly when it gives the
 list back.
 */
module ForwardedRoundTrip {
  import opened Wrappers
  import opened Text
  import opened Forwarded

  // ---------------------------------------------------------------------------------------
  // Reading back what was printed
  // ---------------------------------------------------------------------------------------

  /** What survives of a value: the parser drops backslashes inside quotes. */
  function Strip(v: string): (r: string)
    ensures '\\' !in r
    ensures '\\' !in v ==> r == v
    ensures '\\' in v ==> |r| < |v|
    ensures |r| <= |v|
  {
    if v == [] then [] else (if v[0] == '\\' then [] else [v[0]]) + Strip(v[1..])
  }

  predicate EndsInBackslash(v: string) {
    v != [] && v[|v| - 1] == '\\'
  }

  function StripParam(p: Param): Param {
    Param(p.name, Strip(p.value))
  }

  function StripParams(ps: seq<Param>): (r: seq<Param>)
    ensures |r| == |ps|
    ensures forall i :: 0 <= i < |ps| ==> r[i] == StripParam(ps[i])
  {
    if ps == [] then [] else [StripParam(ps[0])] + StripParams(ps[1..])
  }

  function StripOpt(v: Option<string>): Option<string> {
    if v.Some? then Some(Strip(v.value)) else None
  }

  function StripElement(e: Element): Element {
    Element(StripOpt(e.byValue), StripOpt(e.forValue), StripOpt(e.host), StripOpt(e.proto),
            if e.extensions.Some? then Some(StripParams(e.extensions.value)) else None)
  }

  lemma RestCons(c: char, cs: string, last: char, s: State)
    ensures Turn(c, last, s).Continue? ==> Rest([c] + cs, last, s) == Rest(cs, c, Turn(c, last, s).state)
  {
    assert ([c] + cs)[1..] == cs;
  }

  lemma TCharOnly(c: char)
    requires IsTChar(c)
    ensures c != ',' && c != '=' && c != ';' && c != '"' && c != '\\' && !IsOws(c) && IsVChar(c)
  {
  }

  lemma {:induction false} ReadName(name: string, cs: string, last: char, s: State)
    requires Token(name) && !s.inValue && !s.quoted
    ensures Rest(name + "=" + cs, last, s)
         == Rest(cs, '=', s.(inValue := true, name := s.buffer + name, buffer := []))
    decreases |name|
  {
    hide Rest, Store, IsTChar, IsVChar;
    if name == [] {
      assert name + "=" + cs == ['='] + cs && s.buffer + name == s.buffer;
      RestCons('=', cs, last, s);
    } else {
      var rest := name[1..] + "=" + cs;
      assert name[0] in name;
      TCharOnly(name[0]);
      assert name + "=" + cs == [name[0]] + rest;
      RestCons(name[0], rest, last, s);
      ReadName(name[1..], cs, name[0], s.(buffer := s.buffer + [name[0]]));
      assert s.buffer + [name[0]] + name[1..] == s.buffer + name;
    }
  }

  lemma {:induction false} ReadToken(v: string, cs: string, last: char, s: State)
    requires Token(v) && s.inValue && !s.quoted
    ensures Rest(v + cs, last, s) == Rest(cs, ',', s.(buffer := s.buffer + v))
    decreases |v|
  {
    if v == [] {
      assert v + cs == cs && s.buffer + v == s.buffer;
      LastIrrelevant(cs, last, ',', s);
    } else {
      assert v[0] in v;
      TCharOnly(v[0]);
      assert v + cs == [v[0]] + (v[1..] + cs);
      RestCons(v[0], v[1..] + cs, last, s);
      ReadToken(v[1..], cs, v[0], s.(buffer := s.buffer + [v[0]]));
      assert s.buffer + [v[0]] + v[1..] == s.buffer + v;
    }
  }

  lemma ReadQuotedChar(c: char, rest: string, last: char, s: State)
    requires s.inValue && s.quoted && c != '\\'
    ensures Rest(EscapeChar(c) + rest, last, s) == Rest(rest, c, s.(buffer := s.buffer + [c]))
  {
    hide Rest;
    if c == '"' {
      assert EscapeChar(c) + rest == ['\\'] + (['"'] + rest);
      RestCons('\\', ['"'] + rest, last, s);
      RestCons('"', rest, '\\', s);
    } else {
      RestCons(c, rest, last, s);
    }
  }

  lemma EscapeCons(v: string, cs: string)
    ensures v == [] ==> Escape(v) + "\"" + cs == ['"'] + cs
    ensures v != [] ==> Escape(v) + "\"" + cs == EscapeChar(v[0]) + (Escape(v[1..]) + "\"" + cs)
  {
  }

  lemma StripCons(v: string, buffer: string)
    ensures v == [] ==> buffer + Strip(v) == buffer
    ensures v != [] && v[0] == '\\' ==> Strip(v) == Strip(v[1..])
    ensures v != [] && v[0] != '\\' ==> buffer + [v[0]] + Strip(v[1..]) == buffer + Strip(v)
  {
  }

  lemma {:induction false} ReadQuoted(v: string, cs: string, last: char, s: State)
    requires s.inValue && s.quoted
    requires if v == [] then last != '\\' else !EndsInBackslash(v)
    ensures Rest(Escape(v) + "\"" + cs, last, s)
         == Rest(cs, ',', s.(buffer := s.buffer + Strip(v), quoted := false))
    decreases |v|
  {
    hide Rest, Escape, Strip, Store, IsTChar, IsVChar;
    EscapeCons(v, cs);
    StripCons(v, s.buffer);
    if v == [] {
      RestCons('"', cs, last, s);
      LastIrrelevant(cs, '"', ',', s.(quoted := false));
    } else if v[0] == '\\' {
      RestCons('\\', Escape(v[1..]) + "\"" + cs, last, s);
      ReadQuoted(v[1..], cs, '\\', s);
    } else {
      ReadQuotedChar(v[0], Escape(v[1..]) + "\"" + cs, last, s);
      ReadQuoted(v[1..], cs, v[0], s.(buffer := s.buffer + [v[0]]));
    }
  }

  lemma TokenSurvives(v: string)
    requires Token(v)
    ensures Strip(v) == v && !EndsInBackslash(v)
  {
    if '\\' in v { TCharOnly('\\'); }
  }

  lemma ReadQuotedValue(v: string, cs: string, s: State)
    requires s.inValue && !s.quoted && s.buffer == [] && !EndsInBackslash(v)
    ensures Rest("\"" + Escape(v) + "\"" + cs, '=', s) == Rest(cs, ',', s.(buffer := [] + Strip(v)))
  {
    hide Rest, Strip, Escape, Store, IsTChar, IsVChar, EndsInBackslash;
    var rest := Escape(v) + "\"" + cs;
    assert "\"" + Escape(v) + "\"" + cs == ['"'] + rest;
    RestCons('"', rest, '=', s);
    ReadQuoted(v, cs, '"', s.(quoted := true));
  }

  lemma ReadValue(v: string, cs: string, s: State)
    requires s.inValue && !s.quoted && s.buffer == [] && !EndsInBackslash(v)
    ensures Rest(Quote(v) + cs, '=', s) == Rest(cs, ',', s.(buffer := Strip(v)))
  {
    hide Rest, Strip, Token, Escape, EndsInBackslash;
    assert [] + Strip(v) == Strip(v);
    if Token(v) {
      TokenSurvives(v);
      ReadToken(v, cs, '=', s);
    } else {
      ReadQuotedValue(v, cs, s);
    }
  }

  /** The state after the text of `ps`: the last parameter is still to be recorded. */
  function After(e: Element, ps: seq<Param>): State
    requires ps != []
    decreases |ps|
  {
    if |ps| == 1 then State(e, true, ps[0].name, Strip(ps[0].value), false)
    else After(Store(e, ps[0].name, Strip(ps[0].value)), ps[1..])
  }

  function StoreAll(e: Element, ps: seq<Param>): Element
    decreases |ps|
  {
    if ps == [] then e else StoreAll(Store(e, ps[0].name, ps[0].value), ps[1..])
  }

  lemma {:induction false} FinishAfter(e: Element, ps: seq<Param>)
    requires ps != []
    ensures After(e, ps).inValue && !After(e, ps).quoted
    ensures Finish(After(e, ps)) == Some(StoreAll(e, StripParams(ps)))
    decreases |ps|
  {
    if |ps| == 1 {
      assert StripParams(ps)[1..] == [];
    } else {
      FinishAfter(Store(e, ps[0].name, Strip(ps[0].value)), ps[1..]);
      assert StripParams(ps)[1..] == StripParams(ps[1..]);
    }
  }

  ghost predicate Readable(ps: seq<Param>) {
    forall i :: 0 <= i < |ps| ==> Token(ps[i].name) && !EndsInBackslash(ps[i].value)
  }

  lemma ReadParam(p: Param, cs: string, last: char, s: State)
    requires Token(p.name) && !EndsInBackslash(p.value) && !s.inValue && !s.quoted && s.buffer == []
    ensures Rest(PrintParam(p) + cs, last, s) == Rest(cs, ',', State(s.element, true, p.name, Strip(p.value), false))
  {
    assert PrintParam(p) + cs == p.name + "=" + (Quote(p.value) + cs);
    ReadName(p.name, Quote(p.value) + cs, last, s);
    assert [] + p.name == p.name;
    ReadValue(p.value, cs, s.(inValue := true, name := p.name));
  }

  lemma {:induction false} ReadParams(ps: seq<Param>, cs: string, last: char, e: Element)
    requires ps != [] && Readable(ps)
    ensures Rest(PrintParams(ps) + cs, last, State(e, false, [], [], false)) == Rest(cs, ',', After(e, ps))
    decreases |ps|
  {
    var s := State(e, false, [], [], false);
    if |ps| == 1 {
      ReadParam(ps[0], cs, last, s);
    } else {
      var more := PrintParams(ps[1..]) + cs;
      assert PrintParams(ps) + cs == PrintParam(ps[0]) + (";" + more);
      ReadParam(ps[0], ";" + more, last, s);
      RestCons(';', more, ',', State(e, true, ps[0].name, Strip(ps[0].value), false));
      ReadParams(ps[1..], cs, ';', Store(e, ps[0].name, Strip(ps[0].value)));
    }
  }

  // ---------------------------------------------------------------------------------------
  // Elements that a parse can produce
  // ---------------------------------------------------------------------------------------

  predicate Reserved(name: string) {
    name == "by" || name == "for" || name == "host" || name == "proto"
  }

  /** Extension names are lower-case tokens, distinct, and never by, for, host or proto. */
  ghost predicate GoodExtensions(ps: seq<Param>) {
    && (forall i :: 0 <= i < |ps| ==> Token(ps[i].name) && Lower(ps[i].name) == ps[i].name && !Reserved(ps[i].name))
    && (forall i, j :: 0 <= i < j < |ps| ==> ps[i].name != ps[j].name)
  }

  ghost predicate WellFormed(e: Element) {
    GoodExtensions(Extensions(e)) && e.extensions != Some([])
  }

  lemma {:induction false} InsertNew(ps: seq<Param>, p: Param)
    requires forall i :: 0 <= i < |ps| ==> ps[i].name != p.name
    ensures Insert(ps, p) == ps + [p]
  {
    if ps != [] { InsertNew(ps[1..], p); }
  }

  lemma {:induction false} StoreExtensions(e: Element, ps: seq<Param>)
    requires GoodExtensions(Extensions(e) + ps) && e.extensions != Some([])
    ensures StoreAll(e, ps) == if ps == [] then e else e.(extensions := Some(Extensions(e) + ps))
    decreases |ps|
  {
    if ps != [] {
      var all := Extensions(e) + ps;
      forall i | 0 <= i < |Extensions(e)|
        ensures Extensions(e)[i].name != ps[0].name
      {
        assert all[i] == Extensions(e)[i] && all[|Extensions(e)|] == ps[0];
      }
      assert all[|Extensions(e)|] == ps[0];
      InsertNew(Extensions(e), ps[0]);
      var e' := Store(e, ps[0].name, ps[0].value);
      assert e' == e.(extensions := Some(Extensions(e) + [ps[0]]));
      assert Extensions(e') + ps[1..] == all;
      StoreExtensions(e', ps[1..]);
      if |ps| == 1 { assert ps == [ps[0]]; }
    }
  }

  lemma LowerReserved()
    ensures Lower("by") == "by" && Lower("for") == "for" && Lower("host") == "host" && Lower("proto") == "proto"
  {
  }

  lemma StoreOpt(e: Element, name: string, v: Option<string>, ps: seq<Param>)
    ensures StoreAll(e, Opt(name, v) + ps) == StoreAll(if v.Some? then Store(e, name, v.value) else e, ps)
  {
    if v.Some? {
      assert (Opt(name, v) + ps)[1..] == ps;
    } else {
      assert Opt(name, v) + ps == ps;
    }
  }

  lemma StoreFields(e: Element, v: string)
    ensures Store(e, "by", v) == e.(byValue := Some(v)) && Store(e, "for", v) == e.(forValue := Some(v))
    ensures Store(e, "host", v) == e.(host := Some(v)) && Store(e, "proto", v) == e.(proto := Some(v))
  {
    LowerReserved();
    hide Lower;
  }

  lemma StoreBy(v: Option<string>, ps: seq<Param>)
    ensures StoreAll(EMPTY, Opt("by", v) + ps) == StoreAll(EMPTY.(byValue := v), ps)
  {
    hide Store, StoreAll;
    StoreOpt(EMPTY, "by", v, ps);
    if v.Some? { StoreFields(EMPTY, v.value); }
  }

  lemma StoreFor(e: Element, v: Option<string>, ps: seq<Param>)
    requires e.forValue.None?
    ensures StoreAll(e, Opt("for", v) + ps) == StoreAll(e.(forValue := v), ps)
  {
    hide Store, StoreAll;
    StoreOpt(e, "for", v, ps);
    if v.Some? { StoreFields(e, v.value); }
  }

  lemma StoreHost(e: Element, v: Option<string>, ps: seq<Param>)
    requires e.host.None?
    ensures StoreAll(e, Opt("host", v) + ps) == StoreAll(e.(host := v), ps)
  {
    hide Store, StoreAll;
    StoreOpt(e, "host", v, ps);
    if v.Some? { StoreFields(e, v.value); }
  }

  lemma StoreProto(e: Element, v: Option<string>, ps: seq<Param>)
    requires e.proto.None?
    ensures StoreAll(e, Opt("proto", v) + ps) == StoreAll(e.(proto := v), ps)
  {
    hide Store, StoreAll;
    StoreOpt(e, "proto", v, ps);
    if v.Some? { StoreFields(e, v.value); }
  }

  lemma ParamsNest(e: Element)
    ensures Params(e)
         == Opt("by", e.byValue)
            + (Opt("for", e.forValue) + (Opt("host", e.host) + (Opt("proto", e.proto) + Extensions(e))))
  {
    hide Opt, Extensions;
  }

  /** Recording the printed parameters of an element one by one rebuilds it. */
  lemma StoreParams(e: Element)
    requires WellFormed(e)
    ensures StoreAll(EMPTY, Params(e)) == e
  {
    ParamsNest(e);
    hide Params, Store, StoreAll, Opt, GoodExtensions;
    var ext := Extensions(e);
    var ps4 := Opt("proto", e.proto) + ext;
    var ps3 := Opt("host", e.host) + ps4;
    StoreBy(e.byValue, Opt("for", e.forValue) + ps3);
    var e1 := EMPTY.(byValue := e.byValue);
    StoreFor(e1, e.forValue, ps3);
    StoreHost(e1.(forValue := e.forValue), e.host, ps4);
    StoreProto(e1.(forValue := e.forValue, host := e.host), e.proto, ext);
    var e4 := e.(extensions := None);
    assert Extensions(e4) + ext == ext;
    StoreExtensions(e4, ext);
  }

  lemma StripConcat(a: seq<Param>, b: seq<Param>)
    ensures StripParams(a + b) == StripParams(a) + StripParams(b)
  {
  }

  lemma StripOfOpt(name: string, v: Option<string>)
    ensures StripParams(Opt(name, v)) == Opt(name, StripOpt(v))
  {
  }

  lemma StripParamsOf(e: Element)
    ensures StripParams(Params(e)) == Params(StripElement(e))
  {
    hide StripParams, Opt, StripOpt;
    var a, b, c, d := Opt("by", e.byValue), Opt("for", e.forValue), Opt("host", e.host), Opt("proto", e.proto);
    StripConcat(a + b + c + d, Extensions(e));
    StripConcat(a + b + c, d);
    StripConcat(a + b, c);
    StripConcat(a, b);
    StripOfOpt("by", e.byValue);
    StripOfOpt("for", e.forValue);
    StripOfOpt("host", e.host);
    StripOfOpt("proto", e.proto);
    if e.extensions.None? { NothingToStrip(); }
  }

  lemma NothingToStrip()
    ensures StripParams([]) == []
  {
  }

  lemma StripKeepsWellFormed(e: Element)
    requires WellFormed(e)
    ensures WellFormed(StripElement(e))
  {
    forall i | 0 <= i < |Extensions(e)|
      ensures Extensions(StripElement(e))[i].name == Extensions(e)[i].name
    {
    }
  }

  // ---------------------------------------------------------------------------------------
  // Lists
  // ---------------------------------------------------------------------------------------

  ghost predicate Printable(e: Element) {
    WellFormed(e) && Readable(Params(e))
  }

  lemma ReservedTokens()
    ensures Token("by") && Token("for") && Token("host") && Token("proto")
  {
  }

  lemma NamesAreTokens(e: Element)
    requires WellFormed(e)
    ensures forall i :: 0 <= i < |Params(e)| ==> Token(Params(e)[i].name)
  {
    ReservedTokens();
    hide Token, Lower, Reserved;
    var a, b, c, d := Opt("by", e.byValue), Opt("for", e.forValue), Opt("host", e.host), Opt("proto", e.proto);
    NamesConcat(a, b);
    NamesConcat(a + b, c);
    NamesConcat(a + b + c, d);
    NamesConcat(a + b + c + d, Extensions(e));
  }

  lemma NamesConcat(a: seq<Param>, b: seq<Param>)
    requires (forall i :: 0 <= i < |a| ==> Token(a[i].name)) && forall i :: 0 <= i < |b| ==> Token(b[i].name)
    ensures forall i :: 0 <= i < |a + b| ==> Token((a + b)[i].name)
  {
    hide Token;
  }

  lemma ReadParamsThenComma(ps: seq<Param>, cs: string)
    requires ps != [] && Readable(ps)
    ensures Elements(PrintParams(ps) + "," + cs) == Prepend(Some(StoreAll(EMPTY, StripParams(ps))), Elements(cs))
  {
    hide Rest, After, Finish, StoreAll, PrintParams, Turn, Readable;
    var text := PrintParams(ps) + "," + cs;
    ElementsIsRest(text);
    assert text == PrintParams(ps) + ([','] + cs);
    ReadParams(ps, [','] + cs, ',', EMPTY);
    FinishAfter(EMPTY, ps);
    RestEnds(cs, After(EMPTY, ps));
  }

  /** An element followed by a comma is read back, stripped, whether or not it has parameters. */
  lemma ReadElement(e: Element, cs: string)
    requires Printable(e)
    ensures Elements(Print(e) + "," + cs) == Prepend(Some(StripElement(e)), Elements(cs))
  {
    if Params(e) == [] {
      hide Rest;
      EmptyElement(e);
      assert Print(e) + "," + cs == [','] + cs;
      assert ([','] + cs)[1..] == cs;
    } else {
      hide Elements, PrintParams, Params, WellFormed, StoreAll, StripElement, Readable;
      ReadParamsThenComma(Params(e), cs);
      Rebuild(e);
    }
  }

  lemma RestEnds(cs: string, s: State)
    requires s.inValue && !s.quoted
    ensures Rest([','] + cs, ',', s) == Prepend(Finish(s), Elements(cs))
  {
    assert ([','] + cs)[1..] == cs;
  }

  lemma EmptyElement(e: Element)
    requires WellFormed(e) && Params(e) == []
    ensures e == EMPTY == StripElement(e)
  {
    assert |Opt("by", e.byValue)| == 0 && |Opt("for", e.forValue)| == 0 && |Opt("host", e.host)| == 0
        && |Opt("proto", e.proto)| == 0 && |Extensions(e)| == 0;
  }

  lemma Rebuild(e: Element)
    requires WellFormed(e)
    ensures StoreAll(EMPTY, StripParams(Params(e))) == StripElement(e)
  {
    StripParamsOf(e);
    StripKeepsWellFormed(e);
    StoreParams(StripElement(e));
  }

  lemma ReadParamsThenEnd(ps: seq<Param>)
    requires ps != [] && Readable(ps) && PrintParams(ps) != []
    ensures Elements(PrintParams(ps)) == Some([StoreAll(EMPTY, StripParams(ps))])
  {
    hide Rest, After, Finish, StoreAll, PrintParams, Turn, Readable;
    ElementsIsRest(PrintParams(ps));
    assert PrintParams(ps) == PrintParams(ps) + [];
    ReadParams(ps, [], ',', EMPTY);
    FinishAfter(EMPTY, ps);
    RestOfNothing(After(EMPTY, ps));
  }

  lemma ReadLast(e: Element)
    requires Printable(e) && Params(e) != []
    ensures Elements(Print(e)) == Some([StripElement(e)])
  {
    PrintNonEmpty(e);
    hide Elements, PrintParams, Params, WellFormed, StoreAll, StripElement, Readable;
    ReadParamsThenEnd(Params(e));
    Rebuild(e);
  }

  lemma RestOfNothing(s: State)
    ensures Rest([], ',', s) == if Finish(s).Some? then Some([Finish(s).value]) else None
  {
    if Finish(s).Some? { assert [Finish(s).value] + [] == [Finish(s).value]; }
  }

  lemma PrintNonEmpty(e: Element)
    requires Params(e) != []
    ensures '=' in Print(e)
  {
    var p := Params(e)[0];
    assert PrintParam(p)[|p.name|] == '=';
    if |Params(e)| > 1 {
      assert Print(e)[|p.name|] == '=';
    }
  }

  lemma SpaceSkipped(cs: string)
    requires cs != []
    ensures Elements(" " + cs) == Elements(cs)
  {
    RestCons(' ', cs, ',', START);
    ElementsIsRest(" " + cs);
    ElementsIsRest(cs);
    LastIrrelevant(cs, ' ', ',', START);
  }

  lemma SpaceAlone()
    ensures Elements(" ") == Some([EMPTY])
  {
    hide Rest, Elements;
    RestCons(' ', [], ',', START);
    assert [' '] + [] == " ";
    ElementsIsRest(" ");
    LastIrrelevant([], ' ', ',', START);
    RestOfNothing(START);
  }

  function StripElements(es: seq<Element>): (r: seq<Element>)
    ensures |r| == |es|
    ensures forall i :: 0 <= i < |es| ==> r[i] == StripElement(es[i])
  {
    if es == [] then [] else [StripElement(es[0])] + StripElements(es[1..])
  }

  predicate HasParams(e: Element) {
    Params(e) != []
  }

  /** Whether the last element shows in the text at all. */
  predicate LastShows(es: seq<Element>, lead: string, tail: string)
    requires es != []
  {
    HasParams(es[|es| - 1]) || (if |es| == 1 then lead == " " else tail == " ")
  }

  /** Leading or separating blanks: nothing, or one space. */
  predicate Gap(s: string) {
    s == "" || s == " "
  }

  lemma SkipGap(lead: string, cs: string)
    requires Gap(lead) && cs != []
    ensures Elements(lead + cs) == Elements(cs)
  {
    if lead == "" { assert lead + cs == cs; } else { SpaceSkipped(cs); }
  }

  lemma ReadSingle(e: Element, lead: string)
    requires Printable(e) && Gap(lead)
    ensures Elements(lead + Print(e)) == Some(if HasParams(e) || lead == " " then [StripElement(e)] else [])
  {
    if HasParams(e) {
      PrintNonEmpty(e);
      ReadLast(e);
      SkipGap(lead, Print(e));
    } else {
      EmptyElement(e);
      assert lead + Print(e) == lead;
      SpaceAlone();
    }
  }

  /** The elements that show in the text. */
  function Shown(es: seq<Element>, lead: string, tail: string): seq<Element>
    requires es != []
  {
    if LastShows(es, lead, tail) then es else es[..|es| - 1]
  }

  lemma ShownCons(es: seq<Element>, lead: string, tail: string)
    requires |es| > 1
    ensures Shown(es, lead, tail) == [es[0]] + Shown(es[1..], tail, tail)
  {
    assert es[1..][|es| - 2] == es[|es| - 1];
  }

  lemma JoinCons(es: seq<Element>, tail: string)
    requires |es| > 1
    ensures Join(es, "," + tail) == Print(es[0]) + "," + (tail + Join(es[1..], "," + tail))
  {
    hide Print;
  }

  /** What the parser makes of any printed list whose values do not end in a backslash. */
  lemma {:induction false} ReadList(es: seq<Element>, lead: string, tail: string)
    requires es != [] && Gap(lead) && Gap(tail)
    requires forall i :: 0 <= i < |es| ==> Printable(es[i])
    ensures Elements(lead + Join(es, "," + tail)) == Some(StripElements(Shown(es, lead, tail)))
    decreases |es|
  {
    hide Elements, Printable, StripElement, Print, Join;
    if |es| == 1 {
      ReadOne(es, lead, tail);
    } else {
      var rest := tail + Join(es[1..], "," + tail);
      JoinCons(es, tail);
      SkipGap(lead, Print(es[0]) + "," + rest);
      ReadElement(es[0], rest);
      ReadList(es[1..], tail, tail);
      ShownCons(es, lead, tail);
      hide Shown;
      var shown := [es[0]] + Shown(es[1..], tail, tail);
      assert shown[1..] == Shown(es[1..], tail, tail);
    }
  }

  lemma ReadOne(es: seq<Element>, lead: string, tail: string)
    requires |es| == 1 && Gap(lead) && Printable(es[0])
    ensures Elements(lead + Join(es, "," + tail)) == Some(StripElements(Shown(es, lead, tail)))
  {
    hide Elements, Printable, StripElement, Print;
    ReadSingle(es[0], lead);
    assert es[..0] == [] && StripElements(es) == [StripElement(es[0])];
  }
}
