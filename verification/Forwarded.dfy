/**
 The `Forwarded` header (section 4 of RFC 7239): the character state machine that parses a
 list of elements, and the printer.
 */
module Forwarded {
  import opened Wrappers
  import opened Text

  datatype Param = Param(name: string, value: string)

  /** One element; `extensions` holds the parameters other than by, for, host and proto in order. */
  datatype Element = Element(
    byValue: Option<string>,
    forValue: Option<string>,
    host: Option<string>,
    proto: Option<string>,
    extensions: Option<seq<Param>>
  )

  const EMPTY := Element(None, None, None, None, None)

  // ---- parameters of an element ----

  /** `LinkedHashMap::insert`: a key already present moves to the back. */
  function Insert(ps: seq<Param>, p: Param): seq<Param> {
    if ps == [] then [p]
    else if ps[0].name == p.name then ps[1..] + [p]
    else [ps[0]] + Insert(ps[1..], p)
  }

  /** The parameters stay as they are but for the one of that name, which is last with its new value. */
  lemma {:induction false} InsertMoves(ps: seq<Param>, p: Param, i: nat)
    requires i <= |ps| && (i < |ps| ==> ps[i].name == p.name) && forall j :: 0 <= j < i ==> ps[j].name != p.name
    ensures Insert(ps, p) == ps[..i] + (if i < |ps| then ps[i + 1..] else []) + [p]
    decreases |ps|
  {
    if ps != [] && i > 0 { InsertMoves(ps[1..], p, i - 1); }
  }

  function Extensions(e: Element): seq<Param> {
    if e.extensions.None? then [] else e.extensions.value
  }

  /** Records one parsed parameter. */
  function Store(e: Element, name: string, value: string): Element {
    var key := Lower(name);
    if key == "by" then e.(byValue := Some(value))
    else if key == "for" then e.(forValue := Some(value))
    else if key == "host" then e.(host := Some(value))
    else if key == "proto" then e.(proto := Some(value))
    else e.(extensions := Some(Insert(Extensions(e), Param(key, value))))
  }

  // ---- the parser ----

  /** Between two characters of one element: what the local variables of the loop hold. */
  datatype State = State(
    element: Element,
    inValue: bool,            // FHParseState::ParamValue
    name: string,             // param_name, once inValue
    buffer: string,
    quoted: bool
  )

  const START := State(EMPTY, false, [], [], false)

  datatype Next = Fail | Continue(state: State) | EndElement

  /** One turn of the inner loop; `last` is the character before `c`. */
  function Turn(c: char, last: char, s: State): Next {
    if !s.inValue then
      if c == ',' && s.buffer == [] then EndElement
      else if c == '=' then Continue(s.(inValue := true, name := s.buffer, buffer := []))
      else if IsTChar(c) then Continue(s.(buffer := s.buffer + [c]))
      else if IsOws(c) then if s.buffer != [] then Fail else Continue(s)
      else Fail
    else
      var first := !s.quoted && s.buffer == [];
      if first && IsOws(c) then Continue(s)
      else if first && c == '"' then Continue(s.(quoted := true))
      else if s.quoted then
        if c == '\\' then Continue(s)
        else if last == '\\' then Continue(s.(buffer := s.buffer + [c]))
        else if c == '"' then Continue(s.(quoted := false))
        else Continue(s.(buffer := s.buffer + [c]))
      else if c == ';' then Continue(State(Store(s.element, s.name, s.buffer), false, [], [], false))
      else if c == ',' then EndElement
      else if IsVChar(c) then Continue(s.(buffer := s.buffer + [c]))
      else if IsOws(c) then Continue(s)
      else Fail
  }

  /** What the inner loop leaves when the element ends. */
  function Finish(s: State): Option<Element> {
    if s.inValue then Some(Store(s.element, s.name, s.buffer))
    else if s.buffer != [] then None
    else Some(s.element)
  }

  function Prepend(e: Option<Element>, es: Option<seq<Element>>): Option<seq<Element>> {
    if e.Some? && es.Some? then Some([e.value] + es.value) else None
  }

  /** The elements read from `cs` when the current element stands at `s`. */
  function Rest(cs: string, last: char, s: State): Option<seq<Element>>
    decreases |cs|, 1
  {
    if cs == [] then Prepend(Finish(s), Some([]))
    else
      match Turn(cs[0], last, s)
      case Fail => None
      case Continue(s') => Rest(cs[1..], cs[0], s')
      case EndElement => Prepend(Finish(s), Elements(cs[1..]))
  }

  function Elements(cs: string): Option<seq<Element>>
    decreases |cs|, 0
  {
    if cs == [] then Some([])
    else
      match Turn(cs[0], ',', START)
      case Fail => None
      case Continue(s') => Rest(cs[1..], cs[0], s')
      case EndElement => Prepend(Finish(START), Elements(cs[1..]))
  }

  /** `ForwardedHeader::from_string`; None stands for the error return. */
  function Parse(input: string): Option<seq<Element>> {
    if Blank(input) then Some([]) else Elements(input)
  }

  lemma ElementsIsRest(cs: string)
    requires cs != []
    ensures Elements(cs) == Rest(cs, ',', START)
  {
  }

  /** Outside a quoted string the previous character does not matter. */
  lemma LastIrrelevant(cs: string, a: char, b: char, s: State)
    requires !s.quoted
    ensures Rest(cs, a, s) == Rest(cs, b, s)
  {
  }

  // ---- the printer ----

  function Opt(name: string, value: Option<string>): seq<Param> {
    if value.Some? then [Param(name, value.value)] else []
  }

  /** The parameters of an element in the order they are printed. */
  function Params(e: Element): seq<Param> {
    Opt("by", e.byValue) + Opt("for", e.forValue) + Opt("host", e.host) + Opt("proto", e.proto) + Extensions(e)
  }

  function EscapeChar(c: char): string {
    if c == '"' then "\\\"" else [c]
  }

  /** `replace('"', "\\\"")` */
  function Escape(v: string): string {
    if v == [] then [] else EscapeChar(v[0]) + Escape(v[1..])
  }

  function Quote(v: string): string {
    if Token(v) then v else "\"" + Escape(v) + "\""
  }

  function PrintParam(p: Param): string {
    p.name + "=" + Quote(p.value)
  }

  function PrintParams(ps: seq<Param>): string {
    if ps == [] then [] else if |ps| == 1 then PrintParam(ps[0]) else PrintParam(ps[0]) + ";" + PrintParams(ps[1..])
  }

  /** `ForwardedHeader::to_string` */
  function Print(e: Element): string {
    PrintParams(Params(e))
  }

  /** Any text, with `more` after a semicolon. */
  function Then(text: string, more: string): string {
    if text == [] then more else if more == [] then text else text + ";" + more
  }

  function Field(name: string, value: Option<string>): string {
    if value.Some? then name + "=" + Quote(value.value) else ""
  }

  lemma ThenAssociates(a: string, b: string, c: string)
    ensures Then(a, Then(b, c)) == Then(Then(a, b), c)
  {
  }

  lemma PrintCons(ps: seq<Param>)
    requires ps != []
    ensures PrintParams(ps) == Then(PrintParam(ps[0]), PrintParams(ps[1..]))
  {
    assert '=' in PrintParam(ps[0]);
    if |ps| > 1 { assert '=' in PrintParam(ps[1]); }
  }

  lemma {:induction false} PrintConcat(a: seq<Param>, b: seq<Param>)
    ensures PrintParams(a + b) == Then(PrintParams(a), PrintParams(b))
    decreases |a|
  {
    if a == [] {
      assert a + b == b;
    } else {
      assert (a + b)[0] == a[0] && (a + b)[1..] == a[1..] + b;
      hide PrintParams, PrintParam, Then;
      PrintCons(a + b);
      PrintCons(a);
      PrintConcat(a[1..], b);
      ThenAssociates(PrintParam(a[0]), PrintParams(a[1..]), PrintParams(b));
    }
  }

  lemma PrintOpt(name: string, value: Option<string>)
    ensures PrintParams(Opt(name, value)) == Field(name, value)
  {
  }

  /** The printed order: by, for, host, proto, and then the extensions as they came. */
  lemma PrintedInOrder(e: Element)
    ensures Print(e)
         == Then(Then(Then(Then(Field("by", e.byValue), Field("for", e.forValue)), Field("host", e.host)),
                      Field("proto", e.proto)), PrintParams(Extensions(e)))
  {
    hide PrintParams, Opt, Field, Extensions;
    var a, b, c, d := Opt("by", e.byValue), Opt("for", e.forValue), Opt("host", e.host), Opt("proto", e.proto);
    PrintConcat(a + b + c + d, Extensions(e));
    PrintConcat(a + b + c, d);
    PrintConcat(a + b, c);
    PrintConcat(a, b);
    PrintOpt("by", e.byValue);
    PrintOpt("for", e.forValue);
    PrintOpt("host", e.host);
    PrintOpt("proto", e.proto);
  }

  function Join(es: seq<Element>, sep: string): string {
    if es == [] then [] else if |es| == 1 then Print(es[0]) else Print(es[0]) + sep + Join(es[1..], sep)
  }
}
