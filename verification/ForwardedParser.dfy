/**
 The `Forwarded` header as the router's loops read and write it, proved to compute the
 functions of module Forwarded.
 */
module ForwardedParser {
  import opened Wrappers
  import opened Text
  import opened Forwarded
  import opened ForwardedHops

  function Append(es: seq<Element>, rest: Option<seq<Element>>): Option<seq<Element>> {
    if rest.Some? then Some(es + rest.value) else None
  }

  lemma AppendNothing(rest: Option<seq<Element>>)
    ensures Append([], rest) == rest
  {
    if rest.Some? {
      assert [] + rest.value == rest.value;
    }
  }

  lemma AppendAppend(a: seq<Element>, b: seq<Element>, rest: Option<seq<Element>>)
    ensures Append(a, Append(b, rest)) == Append(a + b, rest)
  {
    if rest.Some? {
      assert a + (b + rest.value) == a + b + rest.value;
    }
  }

  function Previous(input: string, i: nat): char
    requires i <= |input|
  {
    if i == 0 then ',' else input[i - 1]
  }

  lemma Step(input: string, i: nat, s: State)
    requires i < |input|
    ensures var t, whole := Turn(input[i], Previous(input, i), s), Rest(input[i..], Previous(input, i), s);
      && (t.Fail? ==> whole == None)
      && (t.Continue? ==> whole == Rest(input[i + 1..], Previous(input, i + 1), t.state))
      && (t.EndElement? ==> whole == Prepend(Finish(s), Elements(input[i + 1..])))
  {
    assert input[i..][0] == input[i] && input[i..][1..] == input[i + 1..];
    hide Turn;
  }

  /** Where the loop stops before the end of the input, the element ends. */
  lemma AtEnd(input: string, s: State)
    ensures Rest(input[|input|..], Previous(input, |input|), s) == Prepend(Finish(s), Elements(input[|input|..]))
  {
    assert input[|input|..] == [];
  }

  /** What a character inside a quoted string does to the buffer, and whether the string goes on. */
  method InQuotes(c: char, last: char, ghost s: State, buffer: string) returns (b: string, open: bool)
    requires s.inValue && s.quoted && s.buffer == buffer
    ensures Turn(c, last, s) == Continue(s.(buffer := b, quoted := open))
  {
    b, open := buffer, true;
    if c == '\\' {
    } else if last == '\\' {
      b := buffer + [c];
    } else if c == '"' {
      open := false;
    } else {
      b := buffer + [c];
    }
  }

  /**
   The loop over the characters of one element, from index `from`: the element read, or None
   for an error, and the index where the next one begins. The branch that reports a missing
   parameter name is dead: `name.value` is read only in the states where it is set.
   */
  method ReadElement(input: string, from: nat) returns (r: Option<Element>, next: nat)
    requires from < |input|
    ensures r.Some? ==> from < next <= |input|
    ensures Rest(input[from..], Previous(input, from), START)
         == Prepend(r, if next <= |input| then Elements(input[next..]) else None)
  {
    var element, inValue, quoted, name, buffer: string := EMPTY, false, false, None, [];
    ghost var whole := Rest(input[from..], Previous(input, from), START);
    next := from;
    hide Elements, Rest, Store, IsTChar, IsVChar;
    while next < |input|
      invariant from <= next <= |input|
      invariant (inValue ==> name.Some?) && (quoted ==> inValue && from < next)
      invariant whole == Rest(input[next..], Previous(input, next), Now(element, inValue, name, buffer, quoted))
    {
      hide Finish, Prepend, Previous;
      var c := input[next];
      ghost var turn := Turn(c, Previous(input, next), Now(element, inValue, name, buffer, quoted));
      Step(input, next, Now(element, inValue, name, buffer, quoted));
      next := next + 1;
      if !inValue {
        if c == ',' && |buffer| == 0 {
          break;
        } else if c == '=' {
          name, buffer, inValue := Some(buffer), [], true;
        } else if IsTChar(c) {
          buffer := buffer + [c];
        } else if IsOws(c) {
          if |buffer| > 0 {
            return None, next;
          }
        } else {
          return None, next;
        }
      } else {
        var first := !quoted && |buffer| == 0;
        if first && IsOws(c) {
        } else if first && c == '"' {
          quoted := true;
        } else if quoted {
          buffer, quoted := InQuotes(c, input[next - 2], Now(element, inValue, name, buffer, quoted), buffer);
        } else if c == ';' {
          element := Store(element, name.value, buffer);
          buffer, name, inValue := [], None, false;
        } else if c == ',' {
          break;
        } else if IsVChar(c) {
          buffer := buffer + [c];
        } else if IsOws(c) {
        } else {
          return None, next;
        }
      }
      assert turn == Continue(Now(element, inValue, name, buffer, quoted));
    }
    AtEnd(input, Now(element, inValue, name, buffer, quoted));
    if inValue {
      element := Store(element, name.value, buffer);
    } else if |buffer| > 0 {
      return None, next;
    }
    r := Some(element);
  }

  /** `ForwardedHeader::from_string` */
  method FromString(input: string) returns (r: Option<seq<Element>>)
    ensures r == Parse(input)
  {
    if Blank(input) {
      return Some([]);
    }
    var results: seq<Element> := [];
    var i := 0;
    assert input[0..] == input;
    AppendNothing(Elements(input));
    while i < |input|
      invariant i <= |input|
      invariant Elements(input) == Append(results, Elements(input[i..]))
    {
      ElementsIsRest(input[i..]);
      LastIrrelevant(input[i..], ',', Previous(input, i), START);
      hide Elements, Rest;
      var element, next := ReadElement(input, i);
      if element.None? {
        return None;
      }
      AppendAppend(results, [element.value], Elements(input[next..]));
      i, results := next, results + [element.value];
    }
    assert input[|input|..] == [] && results + [] == results;
    return Some(results);
  }

  function Now(element: Element, inValue: bool, name: Option<string>, buffer: string, quoted: bool): State {
    State(element, inValue, if inValue && name.Some? then name.value else [], buffer, quoted)
  }

  // ---------------------------------------------------------------------------------------
  // The printer
  // ---------------------------------------------------------------------------------------

  lemma PrintParamNonEmpty(p: Param)
    ensures PrintParam(p) != []
  {
    assert |PrintParam(p)| >= |p.name| + 1;
  }

  lemma {:induction false} PrintParamsLast(ps: seq<Param>, p: Param)
    ensures PrintParams(ps) == [] <==> ps == []
    ensures PrintParams(ps + [p]) == (if ps == [] then [] else PrintParams(ps) + ";") + PrintParam(p)
    decreases |ps|
  {
    hide PrintParam;
    if ps == [] {
      assert ps + [p] == [p];
    } else {
      PrintParamNonEmpty(ps[0]);
      assert (ps + [p])[1..] == ps[1..] + [p];
      PrintParamsLast(ps[1..], p);
    }
  }

  /** `append_string_for_forwarded_header`; `done` are the parameters already in the buffer. */
  method AppendString(sb: string, k: string, v: Option<string>, ghost done: seq<Param>) returns (r: string)
    requires sb == PrintParams(done)
    ensures r == PrintParams(done + Opt(k, v))
  {
    hide PrintParam, PrintParams;
    r := sb;
    if v.None? {
      assert done + Opt(k, v) == done;
      return;
    }
    PrintParamsLast(done, Param(k, v.value));
    if r != [] {
      r := r + ";";
    }
    assert PrintParam(Param(k, v.value)) == k + "=" + Quote(v.value) by { PrintParamIs(k, v.value); }
    assert r + k + "=" + Quote(v.value) == r + (k + "=" + Quote(v.value));
    r := r + k + "=" + Quote(v.value);
  }

  lemma PrintParamIs(k: string, v: string)
    ensures PrintParam(Param(k, v)) == k + "=" + Quote(v)
  {
  }

  lemma PrintNoParams()
    ensures PrintParams([]) == []
  {
  }

  lemma NextParam(done: seq<Param>, ps: seq<Param>, i: nat)
    requires i < |ps|
    ensures done + ps[..i] + Opt(ps[i].name, Some(ps[i].value)) == done + ps[..i + 1]
  {
    assert ps[..i + 1] == ps[..i] + [ps[i]];
  }

  /** `Display::fmt` of `ForwardedHeader` */
  method ToText(e: Element) returns (sb: string)
    ensures sb == Print(e)
  {
    hide PrintParams, Opt;
    ghost var done: seq<Param> := [];
    assert PrintParams([]) == [] by { PrintNoParams(); }
    sb := AppendString([], "by", e.byValue, done);
    done := Opt("by", e.byValue);
    assert [] + done == done;
    sb := AppendString(sb, "for", e.forValue, done);
    done := done + Opt("for", e.forValue);
    sb := AppendString(sb, "host", e.host, done);
    done := done + Opt("host", e.host);
    sb := AppendString(sb, "proto", e.proto, done);
    done := done + Opt("proto", e.proto);
    var ps := Extensions(e);
    assert done + ps == Params(e) && done + ps[..0] == done;
    for i := 0 to |ps|
      invariant sb == PrintParams(done + ps[..i])
    {
      NextParam(done, ps, i);
      sb := AppendString(sb, ps[i].name, Some(ps[i].value), done + ps[..i]);
    }
    assert ps[..|ps|] == ps;
  }

  // ---------------------------------------------------------------------------------------
  // The headers of a request
  // ---------------------------------------------------------------------------------------

  /** `get_existing_forwarded_headers` */
  method GetExisting(all: seq<string>, legacy: Option<seq<Element>>) returns (r: Option<seq<Element>>)
    ensures r == Existing(all, legacy)
    ensures all == [] ==> r == legacy
    ensures all != [] ==> (r.None? <==> exists i :: 0 <= i < |all| && Parse(all[i]).None?)
  {
    if all == [] {
      return legacy;
    }
    var res: seq<Element> := [];
    assert all[0..] == all;
    AppendNothing(ParseLines(all));
    for i := 0 to |all|
      invariant ParseLines(all) == Append(res, ParseLines(all[i..]))
      invariant forall j :: 0 <= j < i ==> Parse(all[j]).Some?
    {
      hide Parse;
      var parsed := FromString(all[i]);
      assert all[i..][0] == all[i] && all[i..][1..] == all[i + 1..];
      if parsed.None? {
        return None;
      }
      AppendAppend(res, parsed.value, ParseLines(all[i + 1..]));
      res := res + parsed.value;
    }
    assert all[|all|..] == [] && res + [] == res;
    return Some(res);
  }

  lemma {:induction false} OnlyValidConcat(a: seq<string>, b: seq<string>)
    ensures OnlyValid(a + b) == OnlyValid(a) + OnlyValid(b)
    decreases |a|
  {
    hide ValidHeaderValue;
    if a == [] {
      assert a + b == b;
    } else {
      assert (a + b)[0] == a[0] && (a + b)[1..] == a[1..] + b;
      OnlyValidConcat(a[1..], b);
      assert [a[0]] + (OnlyValid(a[1..]) + OnlyValid(b)) == [a[0]] + OnlyValid(a[1..]) + OnlyValid(b);
    }
  }

  lemma OnlyValidNone()
    ensures OnlyValid([]) == []
  {
  }

  lemma OnlyValidOne(text: string)
    ensures OnlyValid([text]) == if ValidHeaderValue(text) then [text] else []
  {
    hide ValidHeaderValue;
  }

  /** Adds the element as a line of its own if it can be a header value. */
  method AddLine(lines: seq<string>, e: Element) returns (r: seq<string>)
    ensures r == lines + OnlyValid([Print(e)])
  {
    hide ValidHeaderValue, Print, OnlyValid;
    var text := ToText(e);
    OnlyValidOne(text);
    assert lines + [] == lines;
    r := if ValidHeaderValue(text) then lines + [text] else lines;
  }

  lemma PrintTake(es: seq<Element>, j: nat)
    requires j < |es|
    ensures PrintAll(es)[..j + 1] == PrintAll(es)[..j] + [Print(es[j])]
  {
    hide *;
    TakeOne(PrintAll(es), j);
  }

  lemma TakeOne(lines: seq<string>, j: nat)
    requires j < |lines|
    ensures lines[..j + 1] == lines[..j] + [lines[j]]
  {
  }

  lemma Regroup(a: seq<string>, b: seq<string>, c: seq<string>)
    ensures a + (b + c) == a + b + c
  {
  }

  lemma NextLine(toTarget: seq<string>, es: seq<Element>, j: nat)
    requires j < |es|
    ensures toTarget + OnlyValid(PrintAll(es)[..j]) + OnlyValid([Print(es[j])])
         == toTarget + OnlyValid(PrintAll(es)[..j + 1])
  {
    hide *;
    PrintTake(es, j);
    OnlyValidConcat(PrintAll(es)[..j], [Print(es[j])]);
    Regroup(toTarget, OnlyValid(PrintAll(es)[..j]), OnlyValid([Print(es[j])]));
  }

  /**
   `set_forwarded_headers`: `toTarget` are the `Forwarded` lines already going to the target.
   On an error they are left as they were.
   */
  method SetForwardedHeaders(all: seq<string>, legacy: Option<seq<Element>>, discard: bool, own: Element,
                             toTarget: seq<string>)
    returns (ok: bool, lines: seq<string>)
    ensures var added := ForwardedLines(Existing(all, legacy), discard, own);
      && ok == added.Some?
      && lines == toTarget + if ok then added.value else []
    ensures discard ==> ok && lines == toTarget + if ValidHeaderValue(Print(own)) then [Print(own)] else []
    ensures !discard ==> (ok <==> Existing(all, legacy).Some?)
  {
    hide Existing, ValidHeaderValue, Print, OnlyValid, PrintAll;
    lines := toTarget;
    if !discard {
      var existing := GetExisting(all, legacy);
      if existing.None? {
        return false, toTarget;
      }
      var es := existing.value;
      assert PrintAll(es)[..0] == [] && OnlyValid([]) == [] by { OnlyValidNone(); }
      for j := 0 to |es|
        invariant lines == toTarget + OnlyValid(PrintAll(es)[..j])
      {
        NextLine(toTarget, es, j);
        lines := AddLine(lines, es[j]);
      }
      assert PrintAll(es)[..|es|] == PrintAll(es);
    }
    lines := AddLine(lines, own);
    if !discard {
      Regroup(toTarget, OnlyValid(PrintAll(Existing(all, legacy).value)), OnlyValid([Print(own)]));
    }
    ok := true;
    if discard { OnlyValidOne(Print(own)); }
  }
}
