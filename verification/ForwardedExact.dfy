/**
 Exactly when a printed list of `Forwarded` elements is parsed back to itself.
 A value that ends in a backslash swallows its closing quote, so nothing after it can be
 relied on; that such a list is never given back is shown from what the parser can produce.
 */
module ForwardedExact {
  import opened Wrappers
  import opened Text
  import opened Forwarded
  import opened ForwardedRoundTrip

  predicate IsStop(c: char) {
    c == ';' || c == ','
  }

  /** Every value of the element satisfies `p`. */
  ghost predicate Each(e: Element, p: string -> bool) {
    && (e.byValue.Some? ==> p(e.byValue.value))
    && (e.forValue.Some? ==> p(e.forValue.value))
    && (e.host.Some? ==> p(e.host.value))
    && (e.proto.Some? ==> p(e.proto.value))
    && EachParam(Extensions(e), p)
  }

  ghost predicate EachParam(ps: seq<Param>, p: string -> bool) {
    forall i :: 0 <= i < |ps| ==> p(ps[i].value)
  }

  ghost predicate EachOf(es: seq<Element>, p: string -> bool) {
    forall i :: 0 <= i < |es| ==> Each(es[i], p)
  }

  lemma {:induction false} InsertEach(ps: seq<Param>, q: Param, p: string -> bool)
    requires EachParam(ps, p) && p(q.value)
    ensures EachParam(Insert(ps, q), p)
  {
    if ps != [] { InsertEach(ps[1..], q, p); }
  }

  lemma StoreEach(e: Element, name: string, v: string, p: string -> bool)
    requires Each(e, p) && p(v)
    ensures Each(Store(e, name, v), p)
  {
    InsertEach(Extensions(e), Param(Lower(name), v), p);
  }

  // ---------------------------------------------------------------------------------------
  // No produced value has a backslash before a semicolon or comma
  // ---------------------------------------------------------------------------------------

  predicate Producible(v: string) {
    forall i, j :: 0 <= i < j < |v| && v[i] == '\\' ==> !IsStop(v[j])
  }

  ghost predicate ProducibleState(s: State) {
    && Each(s.element, Producible)
    && (s.inValue ==> Producible(s.buffer))
    && (s.quoted ==> s.inValue && '\\' !in s.buffer)
  }

  lemma TurnProducible(c: char, last: char, s: State)
    requires ProducibleState(s) && Turn(c, last, s).Continue?
    ensures ProducibleState(Turn(c, last, s).state)
  {
    if s.inValue && !s.quoted && c == ';' {
      StoreEach(s.element, s.name, s.buffer, Producible);
    }
  }

  lemma FinishProducible(s: State)
    requires ProducibleState(s) && Finish(s).Some?
    ensures Each(Finish(s).value, Producible)
  {
    if s.inValue { StoreEach(s.element, s.name, s.buffer, Producible); }
  }

  lemma {:induction false} RestProducible(cs: string, last: char, s: State)
    requires ProducibleState(s) && Rest(cs, last, s).Some?
    ensures EachOf(Rest(cs, last, s).value, Producible)
    decreases |cs|, 0
  {
    hide Turn, Finish, ProducibleState, Each;
    if Finish(s).Some? { FinishProducible(s); }
    if cs != [] {
      if Turn(cs[0], last, s).Continue? {
        TurnProducible(cs[0], last, s);
        RestProducible(cs[1..], cs[0], Turn(cs[0], last, s).state);
      } else if Turn(cs[0], last, s).EndElement? {
        ElementsProducible(cs[1..]);
      }
    }
  }

  lemma {:induction false} ElementsProducible(cs: string)
    ensures Elements(cs).Some? ==> EachOf(Elements(cs).value, Producible)
    decreases |cs|, 1
  {
    if cs != [] && Elements(cs).Some? {
      StartProducible();
      hide Rest, ProducibleState, Each;
      ElementsIsRest(cs);
      RestProducible(cs, ',', START);
    }
  }

  lemma StartProducible()
    ensures ProducibleState(START)
  {
  }

  // ---------------------------------------------------------------------------------------
  // A produced value ends in a backslash only where the text says so
  // ---------------------------------------------------------------------------------------

  /**
   `cs`, read after a backslash if `armed`, has a backslash followed by blanks and then a
   semicolon, a comma or the end.
   */
  predicate Halts(cs: string, armed: bool) {
    if cs == [] then armed
    else if cs[0] == '\\' then Halts(cs[1..], true)
    else if IsOws(cs[0]) then Halts(cs[1..], armed)
    else (armed && IsStop(cs[0])) || Halts(cs[1..], false)
  }

  predicate Clean(v: string) {
    !EndsInBackslash(v)
  }

  ghost predicate CleanState(s: State, armed: bool) {
    && Each(s.element, Clean)
    && (s.inValue && EndsInBackslash(s.buffer) ==> armed)
    && (s.quoted ==> s.inValue && '\\' !in s.buffer)
  }

  function ArmedAfter(c: char, armed: bool): bool {
    c == '\\' || (IsOws(c) && armed)
  }

  lemma TurnClean(c: char, last: char, s: State, armed: bool)
    requires CleanState(s, armed) && Turn(c, last, s).Continue? && !(armed && IsStop(c))
    ensures CleanState(Turn(c, last, s).state, ArmedAfter(c, armed))
  {
    if s.inValue && !s.quoted && c == ';' {
      StoreEach(s.element, s.name, s.buffer, Clean);
    }
  }

  lemma FinishClean(s: State)
    requires CleanState(s, false) && Finish(s).Some?
    ensures Each(Finish(s).value, Clean)
  {
    if s.inValue { StoreEach(s.element, s.name, s.buffer, Clean); }
  }

  lemma EndIsStop(c: char, last: char, s: State)
    requires Turn(c, last, s).EndElement?
    ensures IsStop(c) && !IsOws(c) && c != '\\'
  {
  }

  lemma {:induction false} RestClean(cs: string, last: char, s: State, armed: bool)
    requires CleanState(s, armed) && !Halts(cs, armed) && Rest(cs, last, s).Some?
    ensures EachOf(Rest(cs, last, s).value, Clean)
    decreases |cs|, 0
  {
    hide Turn, Finish, Each, IsOws, CleanState, IsStop;
    if cs == [] {
      FinishClean(s);
    } else if Turn(cs[0], last, s).Continue? {
      assert !(armed && IsStop(cs[0])) && !Halts(cs[1..], ArmedAfter(cs[0], armed)) by { StopsAreNoBlanks(cs, armed); }
      TurnClean(cs[0], last, s, armed);
      RestClean(cs[1..], cs[0], Turn(cs[0], last, s).state, ArmedAfter(cs[0], armed));
    } else if Turn(cs[0], last, s).EndElement? {
      EndIsStop(cs[0], last, s);
      FinishClean(s);
      ElementsClean(cs[1..]);
    }
  }

  lemma StopsAreNoBlanks(cs: string, armed: bool)
    requires cs != [] && !Halts(cs, armed)
    ensures !(armed && IsStop(cs[0])) && !Halts(cs[1..], ArmedAfter(cs[0], armed))
  {
  }

  lemma {:induction false} ElementsClean(cs: string)
    requires !Halts(cs, false)
    ensures Elements(cs).Some? ==> EachOf(Elements(cs).value, Clean)
    decreases |cs|, 1
  {
    if cs != [] && Elements(cs).Some? {
      StartClean();
      hide Rest, CleanState, Each;
      ElementsIsRest(cs);
      RestClean(cs, ',', START, false);
    }
  }

  lemma StartClean()
    ensures CleanState(START, false)
  {
  }

  // ---------------------------------------------------------------------------------------
  // A printed list of producible values never says so
  // ---------------------------------------------------------------------------------------

  lemma HaltsCons(c: char, cs: string, armed: bool)
    requires c != '\\' && !IsOws(c)
    ensures Halts([c] + cs, armed) <==> (armed && IsStop(c)) || Halts(cs, false)
  {
    assert ([c] + cs)[1..] == cs;
  }

  lemma {:induction false} HaltsToken(v: string, cs: string)
    requires Token(v)
    ensures Halts(v + cs, false) <==> Halts(cs, false)
  {
    if v == [] {
      assert v + cs == cs;
    } else {
      assert v[0] in v;
      TCharOnly(v[0]);
      assert v + cs == [v[0]] + (v[1..] + cs);
      HaltsCons(v[0], v[1..] + cs, false);
      HaltsToken(v[1..], cs);
    }
  }

  ghost predicate NoStops(v: string) {
    forall i :: 0 <= i < |v| ==> !IsStop(v[i])
  }

  lemma {:induction false} HaltsQuoted(v: string, cs: string, armed: bool)
    requires Producible(v) && (armed ==> NoStops(v))
    ensures Halts(Escape(v) + "\"" + cs, armed) <==> Halts(cs, false)
    decreases |v|
  {
    hide Escape;
    EscapeCons(v, cs);
    if v == [] {
      HaltsCons('"', cs, armed);
    } else {
      var rest := Escape(v[1..]) + "\"" + cs;
      assert Producible(v[1..]);
      if v[0] == '\\' {
        assert (['\\'] + rest)[1..] == rest;
        assert NoStops(v[1..]);
        HaltsQuoted(v[1..], cs, true);
      } else if v[0] == '"' {
        assert EscapeChar('"') + rest == ['\\'] + (['"'] + rest);
        assert (['\\'] + (['"'] + rest))[1..] == ['"'] + rest;
        HaltsCons('"', rest, true);
        HaltsQuoted(v[1..], cs, false);
      } else {
        assert ([v[0]] + rest)[1..] == rest;
        HaltsQuoted(v[1..], cs, if IsOws(v[0]) then armed else false);
      }
    }
  }

  lemma HaltsValue(v: string, cs: string)
    requires Producible(v)
    ensures Halts(Quote(v) + cs, false) <==> Halts(cs, false)
  {
    if Token(v) {
      HaltsToken(v, cs);
    } else {
      assert Quote(v) + cs == ['"'] + (Escape(v) + "\"" + cs);
      HaltsCons('"', Escape(v) + "\"" + cs, false);
      HaltsQuoted(v, cs, false);
    }
  }

  lemma HaltsParam(p: Param, cs: string)
    requires Token(p.name) && Producible(p.value)
    ensures Halts(PrintParam(p) + cs, false) <==> Halts(cs, false)
  {
    hide Halts, Quote, Token;
    assert PrintParam(p) + cs == p.name + (['='] + (Quote(p.value) + cs));
    HaltsToken(p.name, ['='] + (Quote(p.value) + cs));
    HaltsCons('=', Quote(p.value) + cs, false);
    HaltsValue(p.value, cs);
  }

  lemma {:induction false} HaltsParams(ps: seq<Param>, cs: string)
    requires forall i :: 0 <= i < |ps| ==> Token(ps[i].name) && Producible(ps[i].value)
    ensures Halts(PrintParams(ps) + cs, false) <==> Halts(cs, false)
    decreases |ps|
  {
    hide Halts, PrintParam, Token, Producible;
    if ps == [] {
      assert PrintParams(ps) + cs == cs;
    } else if |ps| == 1 {
      HaltsParam(ps[0], cs);
    } else {
      var more := PrintParams(ps[1..]) + cs;
      assert PrintParams(ps) + cs == PrintParam(ps[0]) + ([';'] + more);
      HaltsParam(ps[0], [';'] + more);
      HaltsCons(';', more, false);
      HaltsParams(ps[1..], cs);
    }
  }

  lemma ParamsOfEach(e: Element, p: string -> bool)
    requires Each(e, p)
    ensures EachParam(Params(e), p)
  {
  }

  lemma HaltsElement(e: Element, cs: string)
    requires WellFormed(e) && Each(e, Producible)
    ensures Halts(Print(e) + cs, false) <==> Halts(cs, false)
  {
    ParamsOfEach(e, Producible);
    NamesAreTokens(e);
    HaltsParams(Params(e), cs);
  }

  lemma HaltsGap(gap: string, cs: string)
    requires Gap(gap)
    ensures Halts(gap + cs, false) <==> Halts(cs, false)
  {
    if gap == "" { assert gap + cs == cs; } else { assert (gap + cs)[1..] == cs; }
  }

  lemma {:induction false} HaltsList(es: seq<Element>, tail: string)
    requires Gap(tail) && EachOf(es, Producible)
    requires forall i :: 0 <= i < |es| ==> WellFormed(es[i])
    ensures !Halts(Join(es, "," + tail), false)
    decreases |es|
  {
    hide Print, WellFormed, Each;
    if |es| == 1 {
      HaltsElement(es[0], []);
      assert Print(es[0]) + [] == Join(es, "," + tail);
    } else if |es| > 1 {
      JoinCons(es, tail);
      var rest := Join(es[1..], "," + tail);
      assert Join(es, "," + tail) == Print(es[0]) + ([','] + (tail + rest));
      HaltsElement(es[0], [','] + (tail + rest));
      HaltsCons(',', tail + rest, false);
      HaltsGap(tail, rest);
      HaltsList(es[1..], tail);
    }
  }

  /** A list with a value that ends in a backslash is never given back. */
  lemma TrailingBackslashNeverReturns(es: seq<Element>, tail: string)
    requires Gap(tail) && forall i :: 0 <= i < |es| ==> WellFormed(es[i])
    requires Elements(Join(es, "," + tail)) == Some(es)
    ensures EachOf(es, Clean)
  {
    hide Elements, Halts, Join, WellFormed;
    ElementsProducible(Join(es, "," + tail));
    HaltsList(es, tail);
    ElementsClean(Join(es, "," + tail));
  }

  // ---------------------------------------------------------------------------------------
  // The round trip, exactly
  // ---------------------------------------------------------------------------------------

  predicate NoBackslash(v: string) {
    '\\' !in v
  }

  lemma CleanIfNoBackslash(e: Element)
    requires Each(e, NoBackslash)
    ensures Each(e, Clean)
  {
  }

  lemma CleanIsPrintable(e: Element)
    requires WellFormed(e) && Each(e, Clean)
    ensures Printable(e)
  {
    ParamsOfEach(e, Clean);
    NamesAreTokens(e);
  }

  lemma StripExactly(e: Element)
    ensures StripElement(e) == e <==> Each(e, NoBackslash)
  {
    if StripElement(e) == e {
      forall i | 0 <= i < |Extensions(e)|
        ensures NoBackslash(Extensions(e)[i].value)
      {
        assert StripParams(Extensions(e))[i] == Extensions(e)[i];
      }
    }
    if Each(e, NoBackslash) {
      assert StripParams(Extensions(e)) == Extensions(e);
    }
  }

  lemma StripListExactly(es: seq<Element>)
    ensures StripElements(es) == es <==> EachOf(es, NoBackslash)
  {
    hide Each, StripElement;
    forall i | 0 <= i < |es|
      ensures StripElements(es)[i] == es[i] <==> Each(es[i], NoBackslash)
    {
      StripExactly(es[i]);
    }
  }

  /** A blank text is the text of no element, or of one without parameters. */
  lemma ParseIsElements(es: seq<Element>, tail: string)
    requires Gap(tail)
    ensures Parse(Join(es, "," + tail)) == Elements(Join(es, "," + tail))
  {
    var text := Join(es, "," + tail);
    if |es| == 1 {
      if Params(es[0]) == [] {
        assert text == [];
      } else {
        PrintNonEmpty(es[0]);
      }
    } else if |es| > 1 {
      assert text[|Print(es[0])|] == ',' by {
        hide Print;
        JoinCons(es, tail);
      }
      assert ',' in text;
    }
  }

  /** The last element shows: it has parameters, or blanks are left in its place. */
  predicate EndShows(es: seq<Element>, tail: string) {
    es == [] || HasParams(es[|es| - 1]) || (|es| > 1 && tail == " ")
  }

  lemma CleanListExactly(es: seq<Element>, tail: string)
    requires Gap(tail) && EachOf(es, Clean) && forall i :: 0 <= i < |es| ==> WellFormed(es[i])
    ensures Elements(Join(es, "," + tail)) == Some(es) <==> EachOf(es, NoBackslash) && EndShows(es, tail)
  {
    hide Each, WellFormed, Join, StripElement, StripElements, HasParams, Printable, Elements;
    if es != [] {
      forall i | 0 <= i < |es|
        ensures Printable(es[i])
      {
        CleanIsPrintable(es[i]);
      }
      ReadList(es, "", tail);
      assert "" + Join(es, "," + tail) == Join(es, "," + tail);
      StripListExactly(es);
    } else {
      JoinNothing(tail);
    }
  }

  lemma JoinNothing(tail: string)
    ensures Join([], "," + tail) == [] && Elements([]) == Some([])
  {
  }

  /**
   The round trip, exactly: printing a list of elements and joining them with "," or ", "
   parses back to that list if and only if no value contains a backslash and the last
   element shows in the text.
   */
  lemma RoundTripExactly(es: seq<Element>, tail: string)
    requires Gap(tail) && forall i :: 0 <= i < |es| ==> WellFormed(es[i])
    ensures Parse(Join(es, "," + tail)) == Some(es) <==> EachOf(es, NoBackslash) && EndShows(es, tail)
  {
    hide Each, WellFormed, Join, Parse, Elements, EndShows;
    ParseIsElements(es, tail);
    if EachOf(es, NoBackslash) {
      forall i | 0 <= i < |es|
        ensures Each(es[i], Clean)
      {
        CleanIfNoBackslash(es[i]);
      }
    }
    if Elements(Join(es, "," + tail)) == Some(es) {
      TrailingBackslashNeverReturns(es, tail);
    }
    if EachOf(es, Clean) {
      CleanListExactly(es, tail);
    }
  }

  // ---------------------------------------------------------------------------------------
  // Whatever is parsed is well formed
  // ---------------------------------------------------------------------------------------

  ghost predicate WellFormedState(s: State) {
    WellFormed(s.element) && Token(if s.inValue then s.name else s.buffer)
  }

  lemma {:induction false} InsertGood(ps: seq<Param>, q: Param)
    requires GoodExtensions(ps) && Token(q.name) && Lower(q.name) == q.name && !Reserved(q.name)
    ensures GoodExtensions(Insert(ps, q)) && Insert(ps, q) != []
    ensures forall i :: 0 <= i < |Insert(ps, q)| ==> Insert(ps, q)[i] == q || Insert(ps, q)[i] in ps
  {
    if ps != [] && ps[0].name != q.name {
      assert GoodExtensions(ps[1..]);
      InsertGood(ps[1..], q);
    }
  }

  lemma LowerIsLower(name: string)
    ensures Lower(Lower(name)) == Lower(name)
    ensures Token(name) ==> Token(Lower(name))
  {
    if Token(name) {
      forall c | c in Lower(name)
        ensures IsTChar(c)
      {
        var i :| 0 <= i < |name| && Lower(name)[i] == c;
        assert name[i] in name;
      }
    }
  }

  lemma StoreWellFormed(e: Element, name: string, v: string)
    requires WellFormed(e) && Token(name)
    ensures WellFormed(Store(e, name, v))
  {
    LowerIsLower(name);
    if !Reserved(Lower(name)) { InsertGood(Extensions(e), Param(Lower(name), v)); }
  }

  lemma TurnWellFormed(c: char, last: char, s: State)
    requires WellFormedState(s) && Turn(c, last, s).Continue?
    ensures WellFormedState(Turn(c, last, s).state)
  {
    hide WellFormed, Store;
    if s.inValue && !s.quoted && c == ';' { StoreWellFormed(s.element, s.name, s.buffer); }
  }

  lemma FinishWellFormed(s: State)
    requires WellFormedState(s) && Finish(s).Some?
    ensures WellFormed(Finish(s).value)
  {
    hide WellFormed, Store;
    if s.inValue { StoreWellFormed(s.element, s.name, s.buffer); }
  }

  lemma {:induction false} RestWellFormed(cs: string, last: char, s: State)
    requires WellFormedState(s) && Rest(cs, last, s).Some?
    ensures forall i :: 0 <= i < |Rest(cs, last, s).value| ==> WellFormed(Rest(cs, last, s).value[i])
    decreases |cs|, 0
  {
    hide Turn, Finish, WellFormedState, WellFormed;
    if Finish(s).Some? { FinishWellFormed(s); }
    if cs != [] {
      if Turn(cs[0], last, s).Continue? {
        TurnWellFormed(cs[0], last, s);
        RestWellFormed(cs[1..], cs[0], Turn(cs[0], last, s).state);
      } else if Turn(cs[0], last, s).EndElement? {
        ElementsWellFormed(cs[1..]);
      }
    }
  }

  lemma {:induction false} ElementsWellFormed(cs: string)
    ensures Elements(cs).Some? ==> forall i :: 0 <= i < |Elements(cs).value| ==> WellFormed(Elements(cs).value[i])
    decreases |cs|, 1
  {
    if cs != [] && Elements(cs).Some? {
      StartWellFormed();
      hide Rest, WellFormedState, WellFormed;
      ElementsIsRest(cs);
      RestWellFormed(cs, ',', START);
    }
  }

  lemma StartWellFormed()
    ensures WellFormedState(START)
  {
  }

  /** Every parse gives elements to which the round trip applies. */
  lemma ParsedIsWellFormed(input: string)
    requires Parse(input).Some?
    ensures forall i :: 0 <= i < |Parse(input).value| ==> WellFormed(Parse(input).value[i])
  {
    hide WellFormed;
    ElementsWellFormed(input);
  }
}
