/**
 What the `Forwarded` parser makes of values that are not quoted, such as `for=192.0.2.60:47011`:
 they may hold any visible character but the separators, and blanks in them are dropped. And
 which texts it refuses.
 */
module ForwardedPlain {
  import opened Wrappers
  import opened Text
  import opened Forwarded
  import opened ForwardedRoundTrip

  /** Visible characters other than the separators, and blanks. */
  predicate PlainChars(v: string) {
    forall c :: c in v ==> (IsVChar(c) || IsOws(c)) && c != ';' && c != ','
  }

  function NoBlanks(v: string): (r: string)
    ensures forall c :: c in r ==> c in v && !IsOws(c)
  {
    if v == [] then [] else if IsOws(v[0]) then NoBlanks(v[1..]) else [v[0]] + NoBlanks(v[1..])
  }

  /** A value that is read without quotes: its first visible character is not a quote. */
  predicate Plain(v: string) {
    PlainChars(v) && !("\"" <= NoBlanks(v))
  }

  lemma PlainTurn(c: char, last: char, s: State)
    requires s.inValue && !s.quoted && (IsVChar(c) || IsOws(c)) && c != ';' && c != ','
    requires s.buffer == [] ==> c != '"'
    ensures Turn(c, last, s) == Continue(if IsOws(c) then s else s.(buffer := s.buffer + [c]))
  {
  }

  lemma NoBlanksCons(v: string, buffer: string)
    requires v != []
    ensures IsOws(v[0]) ==> NoBlanks(v) == NoBlanks(v[1..])
    ensures !IsOws(v[0]) ==> NoBlanks(v)[..1] == [v[0]] && buffer + NoBlanks(v) == buffer + [v[0]] + NoBlanks(v[1..])
  {
  }

  lemma {:induction false} ReadPlain(v: string, cs: string, last: char, s: State)
    requires PlainChars(v) && s.inValue && !s.quoted && (s.buffer == [] ==> Plain(v))
    ensures Rest(v + cs, last, s) == Rest(cs, ',', s.(buffer := s.buffer + NoBlanks(v)))
    decreases |v|
  {
    hide Rest, Turn, IsVChar, IsOws, Store;
    if v == [] {
      assert v + cs == cs && s.buffer + NoBlanks(v) == s.buffer;
      LastIrrelevant(cs, last, ',', s);
    } else {
      assert v[0] in v;
      NoBlanksCons(v, s.buffer);
      if s.buffer == [] { NotAQuote(v); }
      PlainTurn(v[0], last, s);
      assert v + cs == [v[0]] + (v[1..] + cs);
      RestCons(v[0], v[1..] + cs, last, s);
      var s1 := if IsOws(v[0]) then s else s.(buffer := s.buffer + [v[0]]);
      assert PlainChars(v[1..]);
      ReadPlain(v[1..], cs, v[0], s1);
    }
  }

  lemma NotAQuote(v: string)
    requires v != [] && Plain(v)
    ensures v[0] != '"'
  {
    assert !IsOws(v[0]) ==> [v[0]] <= NoBlanks(v);
  }

  function PlainParam(p: Param): string {
    p.name + "=" + p.value
  }

  /** Parameters as they stand in an element, separated by semicolons. */
  function PlainText(ps: seq<Param>): string {
    if ps == [] then [] else if |ps| == 1 then PlainParam(ps[0]) else PlainParam(ps[0]) + ";" + PlainText(ps[1..])
  }

  ghost predicate AllPlain(ps: seq<Param>) {
    forall i :: 0 <= i < |ps| ==> Token(ps[i].name) && Plain(ps[i].value)
  }

  /** Each parameter recorded in turn, without the blanks of its value. */
  function StorePlain(e: Element, ps: seq<Param>): Element
    decreases |ps|
  {
    if ps == [] then e else StorePlain(Store(e, ps[0].name, NoBlanks(ps[0].value)), ps[1..])
  }

  lemma ReadPlainParam(p: Param, cs: string, last: char, e: Element)
    requires Token(p.name) && Plain(p.value)
    ensures Rest(PlainParam(p) + cs, last, State(e, false, [], [], false))
         == Rest(cs, ',', State(e, true, p.name, NoBlanks(p.value), false))
  {
    var s := State(e, false, [], [], false);
    assert PlainParam(p) + cs == p.name + "=" + (p.value + cs);
    hide Rest, NoBlanks, Plain;
    ReadName(p.name, p.value + cs, last, s);
    assert [] + p.name == p.name && [] + NoBlanks(p.value) == NoBlanks(p.value);
    PlainIsPlainChars(p.value);
    ReadPlain(p.value, cs, '=', State(e, true, p.name, [], false));
  }

  lemma PlainIsPlainChars(v: string)
    requires Plain(v)
    ensures PlainChars(v)
  {
  }

  /** The whole of an element is read, up to a comma or the end. */
  lemma {:induction false} ReadPlainElement(ps: seq<Param>, cs: string, last: char, e: Element)
    requires ps != [] && AllPlain(ps) && (cs == [] || cs[0] == ',')
    ensures Rest(PlainText(ps) + cs, last, State(e, false, [], [], false))
         == Prepend(Some(StorePlain(e, ps)), if cs == [] then Some([]) else Elements(cs[1..]))
    decreases |ps|
  {
    hide NoBlanks, Plain, Store, Token, Rest, Elements;
    if |ps| == 1 {
      ReadPlainParam(ps[0], cs, last, e);
      PlainEnds(cs, State(e, true, ps[0].name, NoBlanks(ps[0].value), false));
      assert ps[1..] == [];
    } else {
      var more := PlainText(ps[1..]) + cs;
      assert PlainText(ps) + cs == PlainParam(ps[0]) + ([';'] + more);
      ReadPlainParam(ps[0], [';'] + more, last, e);
      RestCons(';', more, ',', State(e, true, ps[0].name, NoBlanks(ps[0].value), false));
      ReadPlainElement(ps[1..], cs, ';', Store(e, ps[0].name, NoBlanks(ps[0].value)));
    }
  }

  lemma PlainEnds(cs: string, s: State)
    requires s.inValue && !s.quoted && (cs == [] || cs[0] == ',')
    ensures Rest(cs, ',', s)
         == Prepend(Some(Store(s.element, s.name, s.buffer)), if cs == [] then Some([]) else Elements(cs[1..]))
  {
    if cs != [] {
      assert cs == [','] + cs[1..];
      RestEnds(cs[1..], s);
    }
  }

  /** Elements separated by commas. */
  function PlainList(es: seq<seq<Param>>): string {
    if es == [] then [] else if |es| == 1 then PlainText(es[0]) else PlainText(es[0]) + "," + PlainList(es[1..])
  }

  function StoreEach(es: seq<seq<Param>>): seq<Element> {
    if es == [] then [] else [StorePlain(EMPTY, es[0])] + StoreEach(es[1..])
  }

  lemma PlainTextHasInk(ps: seq<Param>)
    requires ps != []
    ensures '=' in PlainText(ps)
  {
    assert '=' in PlainParam(ps[0]);
  }

  lemma ListOne(es: seq<seq<Param>>)
    requires |es| == 1
    ensures PlainList(es) == PlainText(es[0]) + [] && StoreEach(es) == [StorePlain(EMPTY, es[0])]
  {
    assert es[1..] == [];
  }

  lemma ListMore(es: seq<seq<Param>>)
    requires |es| > 1
    ensures PlainList(es) == PlainText(es[0]) + ([','] + PlainList(es[1..]))
    ensures StoreEach(es) == [StorePlain(EMPTY, es[0])] + StoreEach(es[1..])
  {
  }

  lemma {:induction false} ReadPlainElements(es: seq<seq<Param>>)
    requires es != [] && forall i :: 0 <= i < |es| ==> es[i] != [] && AllPlain(es[i])
    ensures PlainList(es) != [] && Elements(PlainList(es)) == Some(StoreEach(es))
    decreases |es|
  {
    hide Rest, Elements, PlainText, StorePlain, AllPlain, PlainList, StoreEach;
    PlainTextHasInk(es[0]);
    if |es| == 1 {
      ListOne(es);
      ElementsIsRest(PlainList(es));
      ReadPlainElement(es[0], [], ',', EMPTY);
      assert [StorePlain(EMPTY, es[0])] + [] == [StorePlain(EMPTY, es[0])];
    } else {
      ListMore(es);
      ElementsIsRest(PlainList(es));
      var cs := [','] + PlainList(es[1..]);
      assert cs[1..] == PlainList(es[1..]);
      ReadPlainElement(es[0], cs, ',', EMPTY);
      ReadPlainElements(es[1..]);
    }
  }

  /**
   A list of elements with unquoted values is read as such: every name in lower case, every value
   without its blanks, in order.
   */
  lemma PlainIsRead(es: seq<seq<Param>>)
    requires es != [] && forall i :: 0 <= i < |es| ==> es[i] != [] && AllPlain(es[i])
    ensures Parse(PlainList(es)) == Some(StoreEach(es))
  {
    PlainTextHasInk(es[0]);
    assert '=' in PlainList(es);
    NotBlank(PlainList(es));
    hide Elements, PlainList, Blank, AllPlain;
    ReadPlainElements(es);
  }

  lemma NotBlank(s: string)
    requires '=' in s
    ensures !Blank(s)
  {
  }

  /** The client address with its port, unquoted. */
  lemma PlainForIsRead(v: string)
    requires Plain(v)
    ensures Parse("for=" + v) == Some([Element(None, Some(NoBlanks(v)), None, None, None)])
  {
    var p := Param("for", v);
    ReservedTokens();
    StoreFields(EMPTY, NoBlanks(v));
    assert PlainList([[p]]) == PlainText([p]) == "for" + "=" + v == "for=" + v;
    assert StorePlain(EMPTY, [p]) == EMPTY.(forValue := Some(NoBlanks(v))) by {
      assert [p][1..] == [];
    }
    assert StoreEach([[p]]) == [StorePlain(EMPTY, [p])] by {
      assert [[p]][1..] == [];
    }
    hide Parse, Store, StorePlain, PlainList, PlainText, Plain, NoBlanks;
    PlainIsRead([[p]]);
  }

  // ---------------------------------------------------------------------------------------
  // What is refused
  // ---------------------------------------------------------------------------------------

  lemma {:induction false} BadName(name: string, c: char, cs: string, last: char, s: State)
    requires Token(name) && !s.inValue && s.buffer + name != [] && !IsTChar(c) && c != '='
    ensures Rest(name + [c] + cs, last, s) == None
    decreases |name|
  {
    if name == [] {
      assert name + [c] + cs == [c] + cs && (name + [c] + cs)[0] == c;
    } else {
      assert name[0] in name;
      TCharOnly(name[0]);
      var rest := name[1..] + [c] + cs;
      assert name + [c] + cs == [name[0]] + rest;
      hide Rest, IsTChar;
      RestCons(name[0], rest, last, s);
      BadName(name[1..], c, cs, name[0], s.(buffer := s.buffer + [name[0]]));
    }
  }

  /** A parameter name followed by anything but "=" is an error, blanks and separators included. */
  lemma BadNameRefused(name: string, c: char, cs: string)
    requires name != [] && Token(name) && !IsTChar(c) && c != '='
    ensures Elements(name + [c] + cs) == None
  {
    hide Rest;
    ElementsIsRest(name + [c] + cs);
    BadName(name, c, cs, ',', START);
  }

  /** A control character or a character beyond ASCII in an unquoted value is an error. */
  lemma BadValueRefused(name: string, v: string, c: char, cs: string)
    requires Token(name) && Plain(v) && !IsVChar(c) && !IsOws(c)
    ensures Elements(name + "=" + v + [c] + cs) == None
  {
    var text := name + "=" + v + [c] + cs;
    ElementsIsRest(text);
    assert text == PlainParam(Param(name, v)) + ([c] + cs);
    ReadPlainParam(Param(name, v), [c] + cs, ',', EMPTY);
    assert Turn(c, ',', State(EMPTY, true, name, NoBlanks(v), false)) == Fail;
    assert ([c] + cs)[0] == c;
  }
}
