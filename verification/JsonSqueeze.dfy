/**
 hashJSONValue: the bytes of a value fed to a hash with insignificant whitespace
 removed.  They are the printing of the same tree without whitespace, so two
 texts of one tree are hashed alike.
 */
module JsonSqueeze {
  import opened JsonScan
  import opened JsonTree

  /** The bytes hashed from `raw` on, given the scanner state in front of it. */
  function Squeeze(raw: string, inString: bool, escaped: bool): string {
    if raw == "" then ""
    else
      var c, rest := raw[0], raw[1..];
      if inString then
        [c] + (if escaped then Squeeze(rest, true, false)
               else if c == '\\' then Squeeze(rest, true, true)
               else Squeeze(rest, c != '"', false))
      else if c == '"' then [c] + Squeeze(rest, true, false)
      else if IsSpace(c) then Squeeze(rest, false, false)
      else [c] + Squeeze(rest, false, false)
  }

  /** hashJSONValue; `written` is everything written to the hash, in order. */
  method HashJSONValue(raw: string) returns (written: string)
    ensures written == Squeeze(raw, false, false)
  {
    written := "";
    var start, inString, escaped := 0, false, false;
    var i := 0;
    while i < |raw|
      invariant start <= i <= |raw|
      invariant escaped ==> inString
      invariant written + raw[start..i] + Squeeze(raw[i..], inString, escaped) == Squeeze(raw, false, false)
    {
      var c := raw[i];
      KeepOne(written, raw, start, i);
      i := i + 1;
      if inString {
        if escaped {
          escaped := false;
        } else if c == '\\' {
          escaped := true;
        } else if c == '"' {
          inString := false;
        }
        continue;
      }
      if c == '"' {
        inString := true;
        continue;
      }
      if IsSpace(c) {
        written := written + raw[start..i - 1];
        start := i;
        Nothing(written, raw, i);
      }
    }
    Nothing(written, raw, i);
    written := written + raw[start..];
  }

  lemma KeepOne(written: string, raw: string, start: nat, i: nat)
    requires start <= i < |raw|
    ensures raw[i..][1..] == raw[i + 1..]
    ensures forall s: string :: written + raw[start..i] + ([raw[i]] + s) == written + raw[start..i + 1] + s
  {
    assert raw[start..i + 1] == raw[start..i] + [raw[i]];
  }

  lemma Nothing(written: string, raw: string, i: nat)
    requires i <= |raw|
    ensures written + raw[i..i] == written
    ensures raw[i..i] == "" && (i == |raw| ==> raw[i..] == "" && raw[..i] == raw)
  {
  }

  // ----- the tree without whitespace -----

  function Strip(v: Value): (s: Value)
    decreases v, 1
  {
    match v
    case Scalar(_) => v
    case Str(_) => v
    case Arr(_, elems) => Arr("", StripElems(elems))
    case Obj(_, members) => Obj("", StripEntries(members))
  }

  function StripElems(es: seq<Elem>): (s: seq<Elem>)
    ensures |s| == |es|
    decreases es, 0
  {
    if es == [] then [] else [Elem("", Strip(es[0].val), "")] + StripElems(es[1..])
  }

  function StripEntries(ms: seq<Entry>): (s: seq<Entry>)
    ensures |s| == |ms|
    decreases ms, 0
  {
    if ms == [] then []
    else [Entry("", ms[0].key, "", "", Strip(ms[0].val), "")] + StripEntries(ms[1..])
  }

  lemma {:induction false} SqueezeBlank(s: string, rest: string)
    requires Blank(s)
    ensures Squeeze(s + rest, false, false) == Squeeze(rest, false, false)
  {
    if s == "" {
      assert s + rest == rest;
    } else {
      assert (s + rest)[1..] == s[1..] + rest;
      SqueezeBlank(s[1..], rest);
    }
  }

  lemma {:induction false} SqueezeScalar(s: string, rest: string)
    requires Neutral(s) && Unended(s)
    ensures Squeeze(s + rest, false, false) == s + Squeeze(rest, false, false)
  {
    if s == "" {
      assert s + rest == rest;
    } else {
      assert (s + rest)[1..] == s[1..] + rest;
      SqueezeScalar(s[1..], rest);
      Cons(s, Squeeze(rest, false, false));
    }
  }

  lemma Cons(s: string, rest: string)
    requires s != ""
    ensures [s[0]] + (s[1..] + rest) == s + rest
  {
  }

  lemma SqueezeChar(c: char, rest: string)
    requires !IsSpace(c) && c != '"'
    ensures Squeeze([c] + rest, false, false) == [c] + Squeeze(rest, false, false)
  {
    assert ([c] + rest)[1..] == rest;
  }

  lemma {:induction false} SqueezeBody(raw: string, rest: string)
    requires StringBody(raw)
    ensures Squeeze(raw + "\"" + rest, true, false) == raw + "\"" + Squeeze(rest, false, false)
    decreases |raw|
  {
    var text := raw + "\"" + rest;
    if raw == "" {
      assert text[1..] == rest && raw + "\"" == "\"";
    } else if raw[0] == '\\' {
      var tail := raw[2..] + "\"" + rest;
      assert text[1..][1..] == tail && text[1..][0] == raw[1];
      SqueezeBody(raw[2..], rest);
      assert raw == [raw[0]] + ([raw[1]] + raw[2..]);
      BodyRegroup([raw[0]], [raw[1]], raw[2..], "\"", Squeeze(rest, false, false));
    } else {
      assert text[1..] == raw[1..] + "\"" + rest;
      SqueezeBody(raw[1..], rest);
      BodyRegroup([raw[0]], "", raw[1..], "\"", Squeeze(rest, false, false));
      assert raw == [raw[0]] + ("" + raw[1..]);
    }
  }

  lemma BodyRegroup(a: string, b: string, c: string, d: string, e: string)
    ensures a + (b + (c + d + e)) == a + (b + c) + d + e
    ensures a + (c + d + e) == a + ("" + c) + d + e
  {
  }

  lemma SqueezeQuote(raw: string, rest: string)
    requires StringBody(raw)
    ensures Squeeze(Quote(raw) + rest, false, false) == Quote(raw) + Squeeze(rest, false, false)
  {
    QuoteFront(raw, rest);
    SqueezeBody(raw, rest);
    QuoteFront(raw, Squeeze(rest, false, false));
  }

  lemma QuoteFront(raw: string, rest: string)
    ensures var text := Quote(raw) + rest;
            text != "" && text[0] == '"' && text[1..] == raw + "\"" + rest && text == "\"" + (raw + "\"" + rest)
  {
  }

  /** Squeezing a printed value leaves the printing of the stripped tree. */
  lemma {:induction false} SqueezeValue(v: Value, rest: string)
    requires WF(v)
    ensures Squeeze(Print(v) + rest, false, false) == Print(Strip(v)) + Squeeze(rest, false, false)
    decreases v, 1
  {
    match v {
      case Scalar(text) => SqueezeScalar(text, rest);
      case Str(raw) => SqueezeQuote(raw, rest);
      case Arr(gap, elems) =>
        var inside := if elems == [] then gap else PrintElems(elems);
        Brackets('[', inside, ']', rest);
        if elems == [] { SqueezeBlank(gap, "]" + rest); } else { SqueezeElems(elems, "]" + rest); }
        CloseBracket('[', if elems == [] then "" else PrintElems(StripElems(elems)), ']', Squeeze(rest, false, false));
        SqueezeChar(']', rest);
      case Obj(gap, members) =>
        var inside := if members == [] then gap else PrintEntries(members);
        Brackets('{', inside, '}', rest);
        if members == [] { SqueezeBlank(gap, "}" + rest); } else { SqueezeEntries(members, "}" + rest); }
        CloseBracket('{', if members == [] then "" else PrintEntries(StripEntries(members)), '}',
                     Squeeze(rest, false, false));
        SqueezeChar('}', rest);
    }
  }

  lemma Brackets(open: char, inside: string, close: char, rest: string)
    requires IsOpen(open) && IsClose(close)
    ensures Squeeze([open] + inside + [close] + rest, false, false) ==
            [open] + Squeeze(inside + ([close] + rest), false, false)
  {
    assert [open] + inside + [close] + rest == [open] + (inside + ([close] + rest));
    SqueezeChar(open, inside + ([close] + rest));
  }

  lemma CloseBracket(open: char, inside: string, close: char, rest: string)
    ensures [open] + (inside + ([close] + rest)) == [open] + inside + [close] + rest
    ensures "" + ([close] + rest) == [close] + rest
  {
  }

  lemma {:induction false} SqueezeElems(es: seq<Elem>, rest: string)
    requires es != [] && WFElems(es)
    ensures Squeeze(PrintElems(es) + rest, false, false) ==
            PrintElems(StripElems(es)) + Squeeze(rest, false, false)
    decreases es, 0
  {
    var e := es[0];
    var more := if |es| == 1 then "" else "," + PrintElems(es[1..]);
    SqueezeElem(e, more + rest);
    TextRegroup(e.pre, Print(e.val), e.post, more, rest);
    assert StripElems(es)[0] == Elem("", Strip(e.val), "") && StripElems(es)[1..] == StripElems(es[1..]);
    if |es| == 1 {
      assert "" + rest == rest;
      FirstOnly(Print(Strip(e.val)), Squeeze(rest, false, false));
    } else {
      Comma(PrintElems(es[1..]), rest);
      SqueezeElems(es[1..], rest);
      FirstThen(Print(Strip(e.val)), PrintElems(StripElems(es[1..])), Squeeze(rest, false, false));
    }
  }

  lemma {:induction false} SqueezeElem(e: Elem, rest: string)
    requires Blank(e.pre) && Blank(e.post) && WF(e.val)
    ensures Squeeze(e.pre + (Print(e.val) + (e.post + rest)), false, false) ==
            Print(Strip(e.val)) + Squeeze(rest, false, false)
    decreases e, 2
  {
    SqueezeBlank(e.pre, Print(e.val) + (e.post + rest));
    SqueezeValue(e.val, e.post + rest);
    SqueezeBlank(e.post, rest);
  }

  lemma TextRegroup(a: string, b: string, c: string, d: string, rest: string)
    ensures a + b + c + d + rest == a + (b + (c + (d + rest)))
  {
  }

  lemma FirstOnly(s: string, rest: string)
    ensures "" + s + "" + "" + rest == s + rest
  {
  }

  lemma FirstThen(s: string, t: string, rest: string)
    ensures "" + s + "" + ("," + t) + rest == s + ("," + (t + rest))
  {
  }

  lemma Comma(s: string, rest: string)
    ensures Squeeze("," + s + rest, false, false) == "," + Squeeze(s + rest, false, false)
  {
    assert "," + s + rest == "," + (s + rest);
    SqueezeChar(',', s + rest);
  }

  lemma {:induction false} SqueezeEntries(ms: seq<Entry>, rest: string)
    requires ms != [] && WFEntries(ms)
    ensures Squeeze(PrintEntries(ms) + rest, false, false) ==
            PrintEntries(StripEntries(ms)) + Squeeze(rest, false, false)
    decreases ms, 0
  {
    var m := ms[0];
    var more := if |ms| == 1 then "" else "," + PrintEntries(ms[1..]);
    var bare := Entry("", m.key, "", "", Strip(m.val), "");
    SqueezeEntry(m, more + rest);
    TextRegroup(KeyPart(m), Print(m.val), m.post, more, rest);
    assert StripEntries(ms)[0] == bare && StripEntries(ms)[1..] == StripEntries(ms[1..]);
    BareEntry(bare);
    if |ms| == 1 {
      assert "" + rest == rest;
      FirstOnly(Quote(m.key) + ":" + Print(bare.val), Squeeze(rest, false, false));
    } else {
      Comma(PrintEntries(ms[1..]), rest);
      SqueezeEntries(ms[1..], rest);
      FirstThen(Quote(m.key) + ":" + Print(bare.val), PrintEntries(StripEntries(ms[1..])), Squeeze(rest, false, false));
    }
  }

  lemma BareEntry(m: Entry)
    requires m.pre == "" && m.mid == "" && m.gap == "" && m.post == ""
    ensures KeyPart(m) + Print(m.val) + m.post == "" + (Quote(m.key) + ":" + Print(m.val)) + ""
  {
  }

  lemma {:induction false} SqueezeEntry(m: Entry, rest: string)
    requires WFEntry(m)
    ensures Squeeze(KeyPart(m) + (Print(m.val) + (m.post + rest)), false, false) ==
            Quote(m.key) + ":" + Print(Strip(m.val)) + Squeeze(rest, false, false)
    decreases m, 2
  {
    var tail := Print(m.val) + (m.post + rest);
    KeyRegroup(m, tail);
    SqueezeBlank(m.pre, Quote(m.key) + (m.mid + (":" + (m.gap + tail))));
    SqueezeQuote(m.key, m.mid + (":" + (m.gap + tail)));
    SqueezeBlank(m.mid, ":" + (m.gap + tail));
    SqueezeChar(':', m.gap + tail);
    SqueezeBlank(m.gap, tail);
    SqueezeValue(m.val, m.post + rest);
    SqueezeBlank(m.post, rest);
    EntryRegroup(Quote(m.key), ":", Print(Strip(m.val)), Squeeze(rest, false, false));
  }

  lemma KeyRegroup(m: Entry, tail: string)
    ensures KeyPart(m) + tail == m.pre + (Quote(m.key) + (m.mid + (":" + (m.gap + tail))))
  {
  }

  lemma EntryRegroup(a: string, b: string, c: string, d: string)
    ensures a + (b + (c + d)) == a + b + c + d
  {
  }

  /** What is hashed is the printing of the tree without whitespace. */
  lemma HashedText(v: Value)
    requires WF(v)
    ensures Squeeze(Print(v), false, false) == Print(Strip(v))
  {
    SqueezeValue(v, "");
    assert Print(v) + "" == Print(v) && Print(Strip(v)) + "" == Print(Strip(v));
  }

  /** So whitespace does not matter: two texts of one tree are hashed alike. */
  lemma HashIgnoresWhitespace(v: Value, w: Value)
    requires WF(v) && WF(w) && Strip(v) == Strip(w)
    ensures Squeeze(Print(v), false, false) == Squeeze(Print(w), false, false)
  {
    HashedText(v);
    HashedText(w);
  }
}
