/**
 RFC 8259 values printed with arbitrary insignificant whitespace, and the proof
 that the scanner of JsonScan.dfy inverts the printing.

 A tree carries its whitespace, so that printing is a function: every JSON text
 is the printing of one such tree.  Strings and scalars are kept as raw text,
 under conditions that every RFC 8259 token meets.
 */
module JsonTree {
  import opened Text
  import opened JsonScan

  datatype Value =
    | Scalar(text: string)                     // a number, true, false or null
    | Str(raw: string)                         // the text between the quotes
    | Arr(gap: string, elems: seq<Elem>)       // `gap` is the inside of an empty array
    | Obj(gap: string, members: seq<Entry>)    // `gap` is the inside of an empty object

  datatype Elem = Elem(pre: string, val: Value, post: string)

  datatype Entry = Entry(pre: string, key: string, mid: string, gap: string, val: Value, post: string)

  /** A whole request body: one object between whitespace. */
  datatype Doc = Doc(lead: string, gap: string, members: seq<Entry>, trail: string)

  // ----- printing -----

  function Quote(raw: string): string { "\"" + raw + "\"" }

  function Print(v: Value): string
    decreases v, 1
  {
    match v
    case Scalar(text) => text
    case Str(raw) => Quote(raw)
    case Arr(gap, elems) => "[" + (if elems == [] then gap else PrintElems(elems)) + "]"
    case Obj(gap, members) => "{" + (if members == [] then gap else PrintEntries(members)) + "}"
  }

  function PrintElems(es: seq<Elem>): string
    decreases es, 0
  {
    if es == [] then ""
    else es[0].pre + Print(es[0].val) + es[0].post + (if |es| == 1 then "" else "," + PrintElems(es[1..]))
  }

  function KeyPart(m: Entry): string { m.pre + Quote(m.key) + m.mid + ":" + m.gap }

  function PrintEntries(ms: seq<Entry>): string
    decreases ms, 0
  {
    if ms == [] then ""
    else
      KeyPart(ms[0]) + Print(ms[0].val) + ms[0].post + (if |ms| == 1 then "" else "," + PrintEntries(ms[1..]))
  }

  function PrintDoc(d: Doc): string {
    d.lead + Print(Obj(d.gap, d.members)) + d.trail
  }

  // ----- well-formed trees -----

  predicate Blank(s: string) { s == "" || (IsSpace(s[0]) && Blank(s[1..])) }

  /** Characters of a string, each escape taken together with the character behind it. */
  predicate StringBody(raw: string) {
    if raw == "" then true
    else if raw[0] == '\\' then |raw| >= 2 && StringBody(raw[2..])
    else raw[0] != '"' && raw[0] >= ' ' && StringBody(raw[1..])
  }

  /** Text the bracket counter does not look at. */
  predicate Neutral(s: string) {
    s == "" || (s[0] != '"' && !IsOpen(s[0]) && !IsClose(s[0]) && Neutral(s[1..]))
  }

  predicate Unended(s: string) { s == "" || (!EndsScalar(s[0]) && Unended(s[1..])) }

  predicate ScalarText(text: string) {
    text != "" && StartsScalar(text[0]) && Neutral(text) && Unended(text)
  }

  predicate WF(v: Value)
    decreases v, 1
  {
    match v
    case Scalar(text) => ScalarText(text)
    case Str(raw) => StringBody(raw)
    case Arr(gap, elems) => Blank(gap) && WFElems(elems)
    case Obj(gap, members) => Blank(gap) && WFEntries(members)
  }

  predicate WFElems(es: seq<Elem>)
    decreases es, 0
  {
    es == [] || (Blank(es[0].pre) && Blank(es[0].post) && WF(es[0].val) && WFElems(es[1..]))
  }

  predicate WFEntries(ms: seq<Entry>)
    decreases ms, 0
  {
    ms == [] || (WFEntry(ms[0]) && WFEntries(ms[1..]))
  }

  predicate WFEntry(m: Entry)
    decreases m, 2
  {
    Blank(m.pre) && Blank(m.mid) && Blank(m.gap) && Blank(m.post) && StringBody(m.key) && WF(m.val)
  }

  predicate WFDoc(d: Doc) {
    Blank(d.lead) && Blank(d.trail) && WF(Obj(d.gap, d.members))
  }

  /** No key holds an escape; what the scanner asks of the objects it opens. */
  predicate PlainKeys(ms: seq<Entry>) {
    ms == [] || ('\\' !in ms[0].key && PlainKeys(ms[1..]))
  }

  // ----- text at an offset -----

  /** `s` lies in `b` at offset `i`. */
  predicate Lies(b: string, s: string, i: nat)
    decreases |s|
  {
    if s == "" then i <= |b| else i < |b| && b[i] == s[0] && Lies(b, s[1..], i + 1)
  }

  lemma {:induction false} LiesIsAt(b: string, s: string, i: nat)
    ensures Lies(b, s, i) <==> At(b, s, i)
    decreases |s|
  {
    if s != "" {
      LiesIsAt(b, s[1..], i + 1);
      if i + |s| <= |b| {
        assert b[i..i + |s|] == [b[i]] + b[i + 1..i + |s|];
        assert b[i + 1..i + 1 + |s[1..]|] == b[i + 1..i + |s|];
        assert s == [s[0]] + s[1..];
      }
    }
  }

  lemma {:induction false} LiesConcat(b: string, s: string, t: string, i: nat)
    ensures Lies(b, s + t, i) <==> Lies(b, s, i) && Lies(b, t, i + |s|)
    decreases |s|
  {
    if s == "" {
      assert s + t == t;
      if Lies(b, t, i) {
        LiesInside(b, t, i);
      }
    } else {
      assert (s + t)[1..] == s[1..] + t;
      LiesConcat(b, s[1..], t, i + 1);
    }
  }

  predicate CharAt(b: string, c: char, i: nat) { i < |b| && b[i] == c }

  lemma CharLies(b: string, c: char, i: nat)
    ensures Lies(b, [c], i) <==> CharAt(b, c, i)
  {
  }

  lemma {:induction false} LiesInside(b: string, s: string, i: nat)
    requires Lies(b, s, i)
    ensures i + |s| <= |b|
    decreases |s|
  {
    if s != "" {
      LiesInside(b, s[1..], i + 1);
    }
  }

  lemma {:induction false} LiesChar(b: string, s: string, i: nat, k: nat)
    requires Lies(b, s, i) && k < |s|
    ensures i + k < |b| && b[i + k] == s[k]
    decreases k
  {
    if k > 0 {
      LiesChar(b, s[1..], i + 1, k - 1);
    }
  }

  /** Whitespace is skipped up to the next other character. */
  lemma {:induction false} SkipBlank(b: string, s: string, i: nat)
    requires Lies(b, s, i) && Blank(s)
    ensures SkipSpace(b, i) == SkipSpace(b, i + |s|)
    decreases |s|
  {
    if s != "" {
      SkipBlank(b, s[1..], i + 1);
    }
  }

  lemma SkipTo(b: string, s: string, i: nat)
    requires Lies(b, s, i) && Blank(s)
    requires i + |s| < |b| && !IsSpace(b[i + |s|])
    ensures SkipSpace(b, i) == i + |s|
  {
    SkipBlank(b, s, i);
  }

  // ----- strings and scalars -----

  lemma {:induction false} StringTailPrinted(b: string, raw: string, i: nat)
    requires StringBody(raw) && Lies(b, raw, i)
    requires i + |raw| < |b| && b[i + |raw|] == '"'
    ensures StringTail(b, i) == Some(i + |raw| + 1)
    decreases |raw|
  {
    if raw != "" {
      var n := if raw[0] == '\\' then 2 else 1;
      assert raw == raw[..n] + raw[n..];
      LiesConcat(b, raw[..n], raw[n..], i);
      StringTailPrinted(b, raw[n..], i + n);
    }
  }

  /** A quoted text lies at `i`. */
  predicate QuoteHolds(b: string, raw: string, i: nat) {
    i + |raw| + 1 < |b| && b[i] == '"' && Lies(b, raw, i + 1) && b[i + |raw| + 1] == '"'
  }

  lemma QuoteLies(b: string, raw: string, i: nat)
    ensures Lies(b, Quote(raw), i) <==> QuoteHolds(b, raw, i)
  {
    LiesConcat(b, "\"" + raw, "\"", i);
    LiesConcat(b, "\"", raw, i);
  }

  lemma ScanQuoted(b: string, raw: string, i: nat)
    requires StringBody(raw) && QuoteHolds(b, raw, i)
    ensures ScanString(b, i) == Some(i + |raw| + 2)
  {
    StringTailPrinted(b, raw, i + 1);
  }

  lemma {:induction false} ScalarEndPrinted(b: string, text: string, i: nat)
    requires Lies(b, text, i) && Unended(text)
    requires i + |text| < |b| ==> EndsScalar(b[i + |text|])
    ensures ScalarEnd(b, i) == i + |text|
    decreases |text|
  {
    if text != "" {
      ScalarEndPrinted(b, text[1..], i + 1);
    }
  }

  // ----- layout: where the parts of a printed value lie -----

  function Size(v: Value): nat
    decreases v, 1
  {
    match v
    case Scalar(text) => |text|
    case Str(raw) => |raw| + 2
    case Arr(gap, elems) => (if elems == [] then |gap| else ElemsSize(elems)) + 2
    case Obj(gap, members) => (if members == [] then |gap| else EntriesSize(members)) + 2
  }

  function ElemSize(e: Elem): nat
    decreases e, 2
  {
    |e.pre| + Size(e.val) + |e.post|
  }

  function ElemsSize(es: seq<Elem>): nat
    decreases es, 0
  {
    if es == [] then 0 else ElemSize(es[0]) + (if |es| == 1 then 0 else 1 + ElemsSize(es[1..]))
  }

  function KeySize(m: Entry): nat { |m.pre| + |m.key| + 3 + |m.mid| + |m.gap| }

  function EntrySize(m: Entry): nat
    decreases m, 2
  {
    KeySize(m) + Size(m.val) + |m.post|
  }

  function EntriesSize(ms: seq<Entry>): nat
    decreases ms, 0
  {
    if ms == [] then 0 else EntrySize(ms[0]) + (if |ms| == 1 then 0 else 1 + EntriesSize(ms[1..]))
  }

  /** The printed value lies at `i`, part by part. */
  predicate Holds(b: string, v: Value, i: nat)
    decreases v, 1
  {
    match v
    case Scalar(text) => Lies(b, text, i)
    case Str(raw) => QuoteHolds(b, raw, i)
    case Arr(gap, elems) =>
      && CharAt(b, '[', i) && CharAt(b, ']', i + Size(v) - 1)
      && (if elems == [] then Lies(b, gap, i + 1) else ElemsHold(b, elems, i + 1))
    case Obj(gap, members) =>
      && CharAt(b, '{', i) && CharAt(b, '}', i + Size(v) - 1)
      && (if members == [] then Lies(b, gap, i + 1) else EntriesHold(b, members, i + 1))
  }

  predicate ElemHolds(b: string, e: Elem, j: nat)
    decreases e, 2
  {
    Lies(b, e.pre, j) && Holds(b, e.val, j + |e.pre|) && Lies(b, e.post, j + |e.pre| + Size(e.val))
  }

  predicate ElemsHold(b: string, es: seq<Elem>, j: nat)
    decreases es, 0
  {
    es == [] ||
    (ElemHolds(b, es[0], j) &&
     (|es| == 1 || (CharAt(b, ',', j + ElemSize(es[0])) && ElemsHold(b, es[1..], j + ElemSize(es[0]) + 1))))
  }

  /** From the whitespace before a key to the whitespace behind its colon. */
  predicate KeyHolds(b: string, m: Entry, j: nat) {
    && Lies(b, m.pre, j)
    && QuoteHolds(b, m.key, j + |m.pre|)
    && Lies(b, m.mid, j + |m.pre| + |m.key| + 2)
    && CharAt(b, ':', j + |m.pre| + |m.key| + 2 + |m.mid|)
    && Lies(b, m.gap, j + |m.pre| + |m.key| + 3 + |m.mid|)
  }

  predicate EntryHolds(b: string, m: Entry, j: nat)
    decreases m, 2
  {
    KeyHolds(b, m, j) && Holds(b, m.val, j + KeySize(m)) && Lies(b, m.post, j + KeySize(m) + Size(m.val))
  }

  predicate EntriesHold(b: string, ms: seq<Entry>, j: nat)
    decreases ms, 0
  {
    ms == [] ||
    (EntryHolds(b, ms[0], j) &&
     (|ms| == 1 || (CharAt(b, ',', j + EntrySize(ms[0])) && EntriesHold(b, ms[1..], j + EntrySize(ms[0]) + 1))))
  }

  lemma {:induction false} PrintHolds(b: string, v: Value, i: nat)
    requires Lies(b, Print(v), i)
    ensures Holds(b, v, i)
    ensures |Print(v)| == Size(v)
    decreases v, 1
  {
    match v {
      case Scalar(_) =>
      case Str(raw) => QuoteLies(b, raw, i);
      case Arr(gap, elems) =>
        var inner := if elems == [] then gap else PrintElems(elems);
        BracketsHold(b, '[', inner, ']', i);
        PrintArrHolds(b, v, inner, i);
      case Obj(gap, members) =>
        var inner := if members == [] then gap else PrintEntries(members);
        BracketsHold(b, '{', inner, '}', i);
        PrintObjHolds(b, v, inner, i);
    }
  }

  lemma {:induction false} PrintArrHolds(b: string, v: Value, inner: string, i: nat)
    requires v.Arr? && inner == (if v.elems == [] then v.gap else PrintElems(v.elems))
    requires CharAt(b, '[', i) && Lies(b, inner, i + 1) && CharAt(b, ']', i + 1 + |inner|)
    ensures Holds(b, v, i) && |inner| + 2 == Size(v)
    decreases v, 0
  {
    if v.elems != [] { PrintElemsHold(b, v.elems, i + 1); }
  }

  lemma {:induction false} PrintObjHolds(b: string, v: Value, inner: string, i: nat)
    requires v.Obj? && inner == (if v.members == [] then v.gap else PrintEntries(v.members))
    requires CharAt(b, '{', i) && Lies(b, inner, i + 1) && CharAt(b, '}', i + 1 + |inner|)
    ensures Holds(b, v, i) && |inner| + 2 == Size(v)
    decreases v, 0
  {
    if v.members != [] { PrintEntriesHold(b, v.members, i + 1); }
  }

  lemma {:induction false} BracketsHold(b: string, open: char, s: string, close: char, i: nat)
    requires Lies(b, [open] + s + [close], i)
    ensures CharAt(b, open, i) && Lies(b, s, i + 1) && CharAt(b, close, i + 1 + |s|)
  {
    LiesApart(b, [open], s, [close], i, i + 1, i + 1 + |s|);
    CharLies(b, open, i);
    CharLies(b, close, i + 1 + |s|);
  }

  lemma {:induction false} LiesApart(b: string, l: string, m: string, r: string, i: nat, j: nat, k: nat)
    requires Lies(b, l + m + r, i) && j == i + |l| && k == j + |m|
    ensures Lies(b, l, i) && Lies(b, m, j) && Lies(b, r, k)
  {
    LiesConcat(b, l + m, r, i);
    LiesConcat(b, l, m, i);
  }

  lemma {:induction false} PrintElemsHold(b: string, es: seq<Elem>, j: nat)
    requires es != [] && Lies(b, PrintElems(es), j)
    ensures ElemsHold(b, es, j) && |PrintElems(es)| == ElemsSize(es)
    decreases es, 0
  {
    var tail := if |es| == 1 then "" else "," + PrintElems(es[1..]);
    PrintElemHolds(b, es[0], tail, j);
    if |es| > 1 {
      CommaLies(b, PrintElems(es[1..]), j + ElemSize(es[0]));
      PrintElemsHold(b, es[1..], j + ElemSize(es[0]) + 1);
    }
  }

  lemma {:induction false} PrintElemHolds(b: string, e: Elem, tail: string, j: nat)
    requires Lies(b, e.pre + Print(e.val) + e.post + tail, j)
    ensures ElemHolds(b, e, j) && Lies(b, tail, j + ElemSize(e))
    ensures |e.pre + Print(e.val) + e.post + tail| == ElemSize(e) + |tail|
    decreases e, 2
  {
    LiesFour(b, e.pre, Print(e.val), e.post, tail, j);
    PrintHolds(b, e.val, j + |e.pre|);
  }

  lemma {:induction false} PrintEntriesHold(b: string, ms: seq<Entry>, j: nat)
    requires ms != [] && Lies(b, PrintEntries(ms), j)
    ensures EntriesHold(b, ms, j) && |PrintEntries(ms)| == EntriesSize(ms)
    decreases ms, 0
  {
    var tail := if |ms| == 1 then "" else "," + PrintEntries(ms[1..]);
    var at := j + EntrySize(ms[0]);
    PrintEntryLies(b, ms[0], tail, j, at);
    if |ms| > 1 {
      CommaLies(b, PrintEntries(ms[1..]), at);
      PrintEntriesHold(b, ms[1..], at + 1);
    }
  }

  lemma {:induction false} PrintEntryLies(b: string, m: Entry, tail: string, j: nat, at: nat)
    requires Lies(b, KeyPart(m) + Print(m.val) + m.post + tail, j) && at == j + EntrySize(m)
    ensures EntryHolds(b, m, j) && Lies(b, tail, at)
    ensures |KeyPart(m) + Print(m.val) + m.post + tail| == EntrySize(m) + |tail|
    decreases m, 3
  {
    EntryLies(b, m, Print(m.val), tail, j);
    PrintEntryHolds(b, m, j);
    SamePlace(b, tail, j + KeySize(m) + |Print(m.val)| + |m.post|, at);
  }

  lemma {:induction false} PrintEntryHolds(b: string, m: Entry, j: nat)
    requires KeyHolds(b, m, j) && Lies(b, Print(m.val), j + KeySize(m))
    requires Lies(b, m.post, j + KeySize(m) + |Print(m.val)|)
    ensures EntryHolds(b, m, j) && |Print(m.val)| == Size(m.val)
    decreases m, 2
  {
    PrintHolds(b, m.val, j + KeySize(m));
  }

  lemma EntryLies(b: string, m: Entry, val: string, tail: string, j: nat)
    requires Lies(b, KeyPart(m) + val + m.post + tail, j)
    ensures KeyHolds(b, m, j) && Lies(b, val, j + KeySize(m)) && Lies(b, m.post, j + KeySize(m) + |val|)
    ensures Lies(b, tail, j + KeySize(m) + |val| + |m.post|)
    ensures |KeyPart(m) + val + m.post + tail| == KeySize(m) + |val| + |m.post| + |tail|
  {
    LiesFour(b, KeyPart(m), val, m.post, tail, j);
    KeyPartHolds(b, m, j);
    SamePlace(b, val, j + |KeyPart(m)|, j + KeySize(m));
    SamePlace(b, m.post, j + |KeyPart(m)| + |val|, j + KeySize(m) + |val|);
    SamePlace(b, tail, j + |KeyPart(m)| + |val| + |m.post|, j + KeySize(m) + |val| + |m.post|);
  }

  lemma SamePlace(b: string, s: string, i: nat, j: nat)
    requires Lies(b, s, i) && i == j
    ensures Lies(b, s, j)
  {
  }

  lemma CommaLies(b: string, s: string, j: nat)
    requires Lies(b, "," + s, j)
    ensures CharAt(b, ',', j) && Lies(b, s, j + 1)
  {
    LiesConcat(b, ",", s, j);
    CharLies(b, ',', j);
  }

  lemma KeyPartHolds(b: string, m: Entry, j: nat)
    requires Lies(b, KeyPart(m), j)
    ensures KeyHolds(b, m, j) && |KeyPart(m)| == KeySize(m)
  {
    LiesConcat(b, m.pre + Quote(m.key) + m.mid + ":", m.gap, j);
    LiesConcat(b, m.pre + Quote(m.key) + m.mid, ":", j);
    LiesConcat(b, m.pre + Quote(m.key), m.mid, j);
    LiesConcat(b, m.pre, Quote(m.key), j);
    QuoteLies(b, m.key, j + |m.pre|);
    CharLies(b, ':', j + |m.pre| + |m.key| + 2 + |m.mid|);
  }

  lemma LiesFour(b: string, s: string, t: string, u: string, w: string, i: nat)
    requires Lies(b, s + t + u + w, i)
    ensures Lies(b, s, i) && Lies(b, t, i + |s|) && Lies(b, u, i + |s| + |t|) && Lies(b, w, i + |s| + |t| + |u|)
  {
    LiesConcat(b, s + t + u, w, i);
    LiesConcat(b, s + t, u, i);
    LiesConcat(b, s, t, i);
  }

  // ----- the bracket counter passes over a printed value -----

  lemma {:induction false} NestNeutral(b: string, s: string, j: nat, d: int)
    requires Lies(b, s, j) && Neutral(s)
    ensures Nest(b, j, d) == Nest(b, j + |s|, d)
    decreases |s|
  {
    if s != "" {
      NestNeutral(b, s[1..], j + 1, d);
    }
  }

  lemma {:induction false} BlankIsNeutral(s: string)
    requires Blank(s)
    ensures Neutral(s)
  {
    if s != "" {
      BlankIsNeutral(s[1..]);
    }
  }

  lemma NestBlank(b: string, s: string, j: nat, d: int)
    requires Lies(b, s, j) && Blank(s)
    ensures Nest(b, j, d) == Nest(b, j + |s|, d)
  {
    BlankIsNeutral(s);
    NestNeutral(b, s, j, d);
  }

  lemma NestQuoted(b: string, raw: string, j: nat, d: int)
    requires StringBody(raw) && QuoteHolds(b, raw, j)
    ensures Nest(b, j, d) == Nest(b, j + |raw| + 2, d)
  {
    ScanQuoted(b, raw, j);
  }

  /** From an outer level, the counter comes back to that level behind the value. */
  lemma {:induction false} NestValue(b: string, v: Value, j: nat, d: int)
    requires WF(v) && Holds(b, v, j) && d >= 1
    ensures Nest(b, j, d) == Nest(b, j + Size(v), d)
    decreases v, 2
  {
    match v {
      case Scalar(text) => NestNeutral(b, text, j, d);
      case Str(raw) => NestQuoted(b, raw, j, d);
      case _ => NestContents(b, v, j, d);
    }
  }

  /** The opening bracket and everything inside, up to the closing bracket. */
  lemma {:induction false} NestContents(b: string, v: Value, j: nat, d: int)
    requires WF(v) && Holds(b, v, j) && d >= 0
    requires v.Arr? || v.Obj?
    ensures Nest(b, j, d) == Nest(b, j + Size(v) - 1, d + 1)
    decreases v, 1
  {
    match v {
      case Arr(gap, elems) =>
        if elems == [] {
          NestBlank(b, gap, j + 1, d + 1);
        } else {
          NestElems(b, elems, j + 1, d + 1);
        }
      case Obj(gap, members) =>
        if members == [] {
          NestBlank(b, gap, j + 1, d + 1);
        } else {
          NestEntries(b, members, j + 1, d + 1);
        }
    }
  }

  lemma {:induction false} NestElems(b: string, es: seq<Elem>, j: nat, d: int)
    requires es != [] && WFElems(es) && ElemsHold(b, es, j) && d >= 1
    ensures Nest(b, j, d) == Nest(b, j + ElemsSize(es), d)
    decreases es, 0
  {
    var e := es[0];
    NestBlank(b, e.pre, j, d);
    NestValue(b, e.val, j + |e.pre|, d);
    NestBlank(b, e.post, j + |e.pre| + Size(e.val), d);
    if |es| > 1 {
      NestElems(b, es[1..], j + ElemSize(e) + 1, d);
    }
  }

  lemma {:induction false} NestEntries(b: string, ms: seq<Entry>, j: nat, d: int)
    requires ms != [] && WFEntries(ms) && EntriesHold(b, ms, j) && d >= 1
    ensures Nest(b, j, d) == Nest(b, j + EntriesSize(ms), d)
    decreases ms, 0
  {
    var m := ms[0];
    NestKey(b, m, j, d);
    NestValue(b, m.val, j + KeySize(m), d);
    NestBlank(b, m.post, j + KeySize(m) + Size(m.val), d);
    if |ms| > 1 {
      NestEntries(b, ms[1..], j + EntrySize(m) + 1, d);
    }
  }

  lemma NestKey(b: string, m: Entry, j: nat, d: int)
    requires KeyHolds(b, m, j) && StringBody(m.key) && Blank(m.pre) && Blank(m.mid) && Blank(m.gap)
    ensures Nest(b, j, d) == Nest(b, j + KeySize(m), d)
  {
    var k := j + |m.pre|;
    NestBlank(b, m.pre, j, d);
    NestQuoted(b, m.key, k, d);
    NestBlank(b, m.mid, k + |m.key| + 2, d);
    NestBlank(b, m.gap, k + |m.key| + 3 + |m.mid|, d);
  }

  // ----- scanning inverts printing -----

  /** A scalar that ends at `i` cannot run on into what follows. */
  predicate Stops(b: string, i: nat) {
    i < |b| ==> EndsScalar(b[i])
  }

  /** Blanks and then a structural character end a scalar. */
  lemma StopsAtBlank(b: string, s: string, i: nat)
    requires Lies(b, s, i) && Blank(s) && Stops(b, i + |s|)
    ensures Stops(b, i)
  {
  }

  lemma ScanPrintedValue(b: string, v: Value, i: nat)
    requires WF(v) && Holds(b, v, i) && Stops(b, i + Size(v))
    ensures ScanValue(b, i) == Some(i + Size(v))
  {
    match v {
      case Scalar(text) => ScalarEndPrinted(b, text, i);
      case Str(raw) => ScanQuoted(b, raw, i);
      case _ => NestContents(b, v, i, 0);
    }
  }

  lemma ValueStart(b: string, v: Value, i: nat)
    requires WF(v) && Holds(b, v, i)
    ensures Size(v) > 0 && i < |b| && !IsSpace(b[i]) && !IsClose(b[i]) && b[i] != ','
    ensures v.Arr? <==> b[i] == '['
    ensures v.Obj? <==> b[i] == '{'
    ensures v.Str? <==> b[i] == '"'
  {
  }

  /** The span of a member whose text starts at `i`. */
  function SpanOf(m: Entry, i: nat): Span {
    Span(m.key, i + KeySize(m), i + KeySize(m) + Size(m.val))
  }

  function SpansOf(ms: seq<Entry>, i: nat): (spans: seq<Span>)
    ensures |spans| == |ms|
  {
    if ms == [] then [] else [SpanOf(ms[0], i)] + SpansOf(ms[1..], i + EntrySize(ms[0]) + 1)
  }

  lemma KeyScanned(b: string, m: Entry, i: nat)
    requires Blank(m.pre) && StringBody(m.key) && KeyHolds(b, m, i)
    ensures var q := i + |m.pre|;
            && SkipSpace(b, i) == q < |b| && b[q] == '"'
            && ScanString(b, q) == Some(q + |m.key| + 2)
            && q + |m.key| + 1 <= |b| && b[q + 1..q + |m.key| + 1] == m.key
  {
    SkipTo(b, m.pre, i);
    ScanQuoted(b, m.key, i + |m.pre|);
    LiesIsAt(b, m.key, i + |m.pre| + 1);
  }

  lemma KeyPrinted(b: string, m: Entry, i: nat)
    requires Blank(m.pre) && StringBody(m.key) && KeyHolds(b, m, i)
    ensures Members(b, i) ==
            if '\\' in m.key then None else AfterKey(b, m.key, i + |m.pre| + |m.key| + 2)
  {
    KeyScanned(b, m, i);
    KeyRead(b, i, i + |m.pre|, m.key, i + |m.pre| + |m.key| + 2);
  }

  lemma KeyRead(b: string, i: nat, q: nat, key: string, keyEnd: nat)
    requires SkipSpace(b, i) == q < |b| && b[q] == '"' && ScanString(b, q) == Some(keyEnd)
    requires b[q + 1..keyEnd - 1] == key
    ensures Members(b, i) == if '\\' in key then None else AfterKey(b, key, keyEnd)
  {
    assert Members(b, i) == AtKey(b, q);
  }

  lemma ValuePrinted(b: string, m: Entry, i: nat)
    requires WFEntry(m) && EntryHolds(b, m, i) && Stops(b, i + EntrySize(m))
    ensures SpanOf(m, i).end <= |b|
    ensures AfterKey(b, m.key, i + |m.pre| + |m.key| + 2) == AfterValue(b, SpanOf(m, i))
  {
    ColonPrinted(b, m, i);
    LiesInside(b, m.post, i + KeySize(m) + Size(m.val));
    StopsAtBlank(b, m.post, i + KeySize(m) + Size(m.val));
    ScanPrintedValue(b, m.val, i + KeySize(m));
    AfterKeyRead(b, i + |m.pre| + |m.key| + 2, i + |m.pre| + |m.key| + 2 + |m.mid|, SpanOf(m, i));
  }

  lemma ColonPrinted(b: string, m: Entry, i: nat)
    requires WFEntry(m) && KeyHolds(b, m, i) && Holds(b, m.val, i + KeySize(m))
    ensures var colon := i + |m.pre| + |m.key| + 2 + |m.mid|;
            && SkipSpace(b, i + |m.pre| + |m.key| + 2) == colon && CharAt(b, ':', colon)
            && SkipSpace(b, colon + 1) == i + KeySize(m)
  {
    SkipTo(b, m.mid, i + |m.pre| + |m.key| + 2);
    ValueStart(b, m.val, i + KeySize(m));
    SkipTo(b, m.gap, i + |m.pre| + |m.key| + 3 + |m.mid|);
  }

  lemma AfterKeyRead(b: string, keyEnd: nat, colon: nat, span: Span)
    requires SkipSpace(b, keyEnd) == colon && CharAt(b, ':', colon) && SkipSpace(b, colon + 1) == span.start
    requires ScanValue(b, span.start) == Some(span.end)
    ensures span.end <= |b| && AfterKey(b, span.key, keyEnd) == AfterValue(b, span)
  {
  }

  lemma LastPrinted(b: string, m: Entry, i: nat)
    requires Blank(m.post) && Lies(b, m.post, i + KeySize(m) + Size(m.val)) && SpanOf(m, i).end <= |b|
    requires CharAt(b, '}', i + EntrySize(m))
    ensures AfterValue(b, SpanOf(m, i)) == Some(Object([SpanOf(m, i)], i + EntrySize(m)))
  {
    SkipTo(b, m.post, i + KeySize(m) + Size(m.val));
  }

  lemma CommaRead(b: string, span: Span, sep: nat)
    requires span.end <= |b| && SkipSpace(b, span.end) == sep
    requires CharAt(b, ',', sep) && CharAt(b, '"', SkipSpace(b, sep + 1))
    ensures AfterValue(b, span) == Prepend([span], Members(b, SkipSpace(b, sep + 1)))
  {
  }

  lemma CommaPrinted(b: string, m: Entry, i: nat)
    requires Blank(m.post) && Lies(b, m.post, i + KeySize(m) + Size(m.val)) && SpanOf(m, i).end <= |b|
    requires var sep := i + EntrySize(m);
             CharAt(b, ',', sep) && CharAt(b, '"', SkipSpace(b, sep + 1))
    ensures AfterValue(b, SpanOf(m, i)) == Prepend([SpanOf(m, i)], Members(b, SkipSpace(b, i + EntrySize(m) + 1)))
  {
    SkipTo(b, m.post, i + KeySize(m) + Size(m.val));
    CommaRead(b, SpanOf(m, i), i + EntrySize(m));
  }

  lemma NextKeyFollows(b: string, ms: seq<Entry>, i: nat)
    requires ms != [] && WFEntries(ms) && EntriesHold(b, ms, i)
    ensures CharAt(b, '"', SkipSpace(b, i))
  {
    KeyScanned(b, ms[0], i);
  }

  /** One turn of the object loop: the first member is read. */
  lemma TurnPrinted(b: string, m: Entry, i: nat)
    requires WFEntry(m) && EntryHolds(b, m, i) && Stops(b, i + EntrySize(m))
    ensures SpanOf(m, i).end <= |b|
    ensures Members(b, i) == if '\\' in m.key then None else AfterValue(b, SpanOf(m, i))
  {
    KeyPrinted(b, m, i);
    ValuePrinted(b, m, i);
  }

  /** The turn at a comma: the next one starts at the next key. */
  lemma MorePrinted(b: string, ms: seq<Entry>, i: nat)
    requires |ms| > 1 && WFEntries(ms) && EntriesHold(b, ms, i)
    requires SpanOf(ms[0], i).end <= |b|
    ensures AfterValue(b, SpanOf(ms[0], i)) ==
            Prepend([SpanOf(ms[0], i)], Members(b, i + EntrySize(ms[0]) + 1))
  {
    var next := i + EntrySize(ms[0]) + 1;
    NextKeyFollows(b, ms[1..], next);
    CommaPrinted(b, ms[0], i);
    MembersAfterSpace(b, next);
  }

  lemma {:induction false} MembersPrinted(b: string, ms: seq<Entry>, i: nat)
    requires ms != [] && WFEntries(ms) && EntriesHold(b, ms, i)
    requires CharAt(b, '}', i + EntriesSize(ms))
    ensures Members(b, i) == FoundMembers(ms, i)
    decreases |ms|
  {
    if |ms| == 1 {
      TurnPrinted(b, ms[0], i);
      LastPrinted(b, ms[0], i);
      FoundOne(ms, i);
    } else {
      MembersPrinted(b, ms[1..], i + EntrySize(ms[0]) + 1);
      FirstOfMore(b, ms, i);
      FoundMore(ms, i);
    }
  }

  /** What the object loop finds of members whose text starts at `i`. */
  function FoundMembers(ms: seq<Entry>, i: nat): Option<Object> {
    if PlainKeys(ms) then Some(Object(SpansOf(ms, i), i + EntriesSize(ms))) else None
  }

  lemma FoundOne(ms: seq<Entry>, i: nat)
    requires |ms| == 1
    ensures FoundMembers(ms, i) ==
            if '\\' in ms[0].key then None else Some(Object([SpanOf(ms[0], i)], i + EntrySize(ms[0])))
  {
    var none: seq<Span> := [];
    assert ms[1..] == [];
    assert PlainKeys(ms[1..]) && SpansOf(ms[1..], i + EntrySize(ms[0]) + 1) == none;
    assert [SpanOf(ms[0], i)] + none == [SpanOf(ms[0], i)];
  }

  lemma FoundMore(ms: seq<Entry>, i: nat)
    requires |ms| > 1
    ensures FoundMembers(ms, i) ==
            if '\\' in ms[0].key then None
            else Prepend([SpanOf(ms[0], i)], FoundMembers(ms[1..], i + EntrySize(ms[0]) + 1))
  {
  }

  lemma FirstOfMore(b: string, ms: seq<Entry>, i: nat)
    requires |ms| > 1 && WFEntries(ms) && EntriesHold(b, ms, i)
    ensures Members(b, i) ==
            if '\\' in ms[0].key then None
            else Prepend([SpanOf(ms[0], i)], Members(b, i + EntrySize(ms[0]) + 1))
  {
    TurnPrinted(b, ms[0], i);
    MorePrinted(b, ms, i);
  }

  lemma MembersAfterSpace(b: string, i: nat)
    ensures Members(b, SkipSpace(b, i)) == Members(b, i)
  {
    SkipSpaceOnce(b, SkipSpace(b, i));
  }

  lemma SkipSpaceOnce(b: string, i: nat)
    requires i < |b| ==> !IsSpace(b[i])
    ensures SkipSpace(b, i) == i
  {
  }

  /** What the scanner finds in an object whose text starts at `i`. */
  function ObjectOf(ms: seq<Entry>, gap: string, i: nat): Option<Object> {
    if PlainKeys(ms) then Some(Object(SpansOf(ms, i + 1), i + Size(Obj(gap, ms)) - 1)) else None
  }

  /** Scanning an object inverts printing it: exactly its member spans, unless a key holds an escape. */
  lemma ScanPrintedObject(b: string, gap: string, ms: seq<Entry>, i: nat)
    requires WF(Obj(gap, ms)) && Holds(b, Obj(gap, ms), i)
    ensures ScanObjectAt(b, i) == ObjectOf(ms, gap, i)
  {
    if ms == [] {
      SkipTo(b, gap, i + 1);
      assert Members(b, i + 1) == AtKey(b, i + 1 + |gap|);
    } else {
      MembersPrinted(b, ms, i + 1);
    }
  }

  lemma LeadSkipped(b: string, lead: string, v: Value)
    requires Blank(lead) && Lies(b, lead, 0) && WF(v) && Holds(b, v, |lead|)
    ensures SkipSpace(b, 0) == |lead|
  {
    ValueStart(b, v, |lead|);
    SkipTo(b, lead, 0);
  }

  lemma TrailSkipped(b: string, trail: string, i: nat)
    requires Blank(trail) && Lies(b, trail, i) && |b| == i + |trail|
    ensures SkipSpace(b, i) == |b|
  {
    SkipBlank(b, trail, i);
  }

  lemma ScanFrom(b: string, i: nat, v: Value)
    requires v.Obj? && ScanObjectAt(b, i) == ObjectOf(v.members, v.gap, i)
    requires SkipSpace(b, 0) == i && SkipSpace(b, i + Size(v)) == |b|
    ensures ScanObject(b) == ObjectOf(v.members, v.gap, i)
  {
  }

  lemma DocHolds(d: Doc)
    ensures var b := PrintDoc(d);
            var v := Obj(d.gap, d.members);
            Lies(b, d.lead, 0) && Holds(b, v, |d.lead|) && |Print(v)| == Size(v)
  {
    DocLies(d);
    PrintHolds(PrintDoc(d), Obj(d.gap, d.members), |d.lead|);
  }

  lemma DocTrail(d: Doc)
    ensures var end := |d.lead| + Size(Obj(d.gap, d.members));
            Lies(PrintDoc(d), d.trail, end) && |PrintDoc(d)| == end + |d.trail|
  {
    DocLies(d);
    DocTextSize(d);
    var text := Print(Obj(d.gap, d.members));
    SamePlace(PrintDoc(d), d.trail, |d.lead| + |text|, |d.lead| + Size(Obj(d.gap, d.members)));
  }

  lemma DocTextSize(d: Doc)
    ensures |Print(Obj(d.gap, d.members))| == Size(Obj(d.gap, d.members))
  {
    DocHolds(d);
  }

  lemma DocLies(d: Doc)
    ensures var b, text := PrintDoc(d), Print(Obj(d.gap, d.members));
            && Lies(b, d.lead, 0) && Lies(b, text, |d.lead|) && Lies(b, d.trail, |d.lead| + |text|)
            && |b| == |d.lead| + |text| + |d.trail|
  {
    PartsLie(PrintDoc(d), d.lead, Print(Obj(d.gap, d.members)), d.trail);
  }

  lemma PartsLie(b: string, l: string, m: string, r: string)
    requires b == l + m + r
    ensures Lies(b, l, 0) && Lies(b, m, |l|) && Lies(b, r, |l| + |m|)
  {
    LiesWhole(b);
    LiesConcat(b, l + m, r, 0);
    LiesConcat(b, l, m, 0);
  }

  lemma LiesWhole(b: string)
    ensures Lies(b, b, 0)
  {
    LiesIsAt(b, b, 0);
    assert b[0..|b|] == b;
  }

  /** Scanning a whole body inverts printing it. */
  lemma ScanPrintedDoc(d: Doc)
    requires WFDoc(d)
    ensures ScanObject(PrintDoc(d)) == ObjectOf(d.members, d.gap, |d.lead|)
  {
    DocSpaces(d);
    DocScanned(d, PrintDoc(d));
    ScanFrom(PrintDoc(d), |d.lead|, Obj(d.gap, d.members));
  }

  lemma DocScanned(d: Doc, b: string)
    requires WFDoc(d) && b == PrintDoc(d)
    ensures ScanObjectAt(b, |d.lead|) == ObjectOf(d.members, d.gap, |d.lead|)
  {
    DocHolds(d);
    ScanPrintedObject(b, d.gap, d.members, |d.lead|);
  }

  lemma DocSpaces(d: Doc)
    requires WFDoc(d)
    ensures var b := PrintDoc(d);
            SkipSpace(b, 0) == |d.lead| && SkipSpace(b, |d.lead| + Size(Obj(d.gap, d.members))) == |b|
  {
    DocLeadSkipped(d, PrintDoc(d));
    DocTrailSkipped(d, PrintDoc(d), |d.lead| + Size(Obj(d.gap, d.members)));
  }

  lemma DocLeadSkipped(d: Doc, b: string)
    requires WFDoc(d) && b == PrintDoc(d)
    ensures SkipSpace(b, 0) == |d.lead|
  {
    DocHolds(d);
    LeadSkipped(b, d.lead, Obj(d.gap, d.members));
  }

  lemma DocTrailSkipped(d: Doc, b: string, end: nat)
    requires WFDoc(d) && b == PrintDoc(d) && end == |d.lead| + Size(Obj(d.gap, d.members))
    ensures SkipSpace(b, end) == |b|
  {
    DocTrail(d);
    TrailSkipped(b, d.trail, end);
  }

  // ----- arrays -----

  function ElemSpans(es: seq<Elem>, i: nat): (spans: seq<Span>)
    ensures |spans| == |es|
  {
    if es == [] then []
    else
      var start := i + |es[0].pre|;
      [Span("", start, start + Size(es[0].val))] + ElemSpans(es[1..], i + ElemSize(es[0]) + 1)
  }

  lemma ElementTurn(b: string, e: Elem, i: nat)
    requires Blank(e.pre) && Blank(e.post) && WF(e.val) && ElemHolds(b, e, i)
    requires CharAt(b, ']', i + ElemSize(e)) || CharAt(b, ',', i + ElemSize(e))
    ensures var start := i + |e.pre|;
            && SkipSpace(b, i) == start < |b| && b[start] != ']'
            && ScanValue(b, start) == Some(start + Size(e.val))
            && SkipSpace(b, start + Size(e.val)) == i + ElemSize(e)
  {
    var start := i + |e.pre|;
    ValueStart(b, e.val, start);
    SkipTo(b, e.pre, i);
    StopsAtBlank(b, e.post, start + Size(e.val));
    ScanPrintedValue(b, e.val, start);
    SkipTo(b, e.post, start + Size(e.val));
  }

  lemma ElementsUnfold(b: string, first: Span, sep: nat, next: nat, end: nat)
    requires end < |b| && first.end <= end && sep <= end && next == sep + 1 && first.key == ""
    requires ScanValue(b, first.start) == Some(first.end) && SkipSpace(b, first.end) == sep
    requires sep < end ==> b[sep] == ','
    ensures sep == end ==> Elements(b, first.start, end) == Some([first])
    ensures sep < end ==> Elements(b, first.start, end) == Behind([first], Elements(b, SkipSpace(b, next), end))
  {
  }

  lemma {:induction false} ElementsPrinted(b: string, es: seq<Elem>, i: nat, end: nat)
    requires es != [] && WFElems(es) && ElemsHold(b, es, i)
    requires end == i + ElemsSize(es) && CharAt(b, ']', end)
    ensures Elements(b, SkipSpace(b, i), end) == Some(ElemSpans(es, i))
    decreases |es|
  {
    var next := i + ElemSize(es[0]) + 1;
    FirstElement(b, es, i, next, end);
    SpansUnfold(es, i, next);
    if |es| > 1 {
      RestHolds(b, es, i, next, end);
      ElementsPrinted(b, es[1..], next, end);
    }
  }

  lemma RestHolds(b: string, es: seq<Elem>, i: nat, next: nat, end: nat)
    requires |es| > 1 && WFElems(es) && ElemsHold(b, es, i)
    requires end == i + ElemsSize(es) && next == i + ElemSize(es[0]) + 1
    ensures WFElems(es[1..]) && ElemsHold(b, es[1..], next) && end == next + ElemsSize(es[1..])
  {
  }

  function FirstSpan(es: seq<Elem>, i: nat): Span
    requires es != []
  {
    Span("", i + |es[0].pre|, i + |es[0].pre| + Size(es[0].val))
  }

  lemma SpansUnfold(es: seq<Elem>, i: nat, next: nat)
    requires es != [] && next == i + ElemSize(es[0]) + 1
    ensures ElemSpans(es, i) == if |es| == 1 then [FirstSpan(es, i)] else [FirstSpan(es, i)] + ElemSpans(es[1..], next)
  {
    if |es| == 1 {
      assert es[1..] == [];
    }
  }

  lemma FirstElement(b: string, es: seq<Elem>, i: nat, next: nat, end: nat)
    requires es != [] && WFElems(es) && ElemsHold(b, es, i)
    requires end == i + ElemsSize(es) && CharAt(b, ']', end) && next == i + ElemSize(es[0]) + 1
    ensures |es| == 1 ==> Elements(b, SkipSpace(b, i), end) == Some([FirstSpan(es, i)])
    ensures |es| > 1 ==>
              Elements(b, SkipSpace(b, i), end) == Behind([FirstSpan(es, i)], Elements(b, SkipSpace(b, next), end))
  {
    FirstPlaces(b, es, i, next, end);
    ElementsUnfold(b, FirstSpan(es, i), i + ElemSize(es[0]), next, end);
  }

  /** Where the first element is, and what ends it. */
  lemma FirstPlaces(b: string, es: seq<Elem>, i: nat, next: nat, end: nat)
    requires es != [] && WFElems(es) && ElemsHold(b, es, i)
    requires end == i + ElemsSize(es) && CharAt(b, ']', end) && next == i + ElemSize(es[0]) + 1
    ensures var first, sep := FirstSpan(es, i), i + ElemSize(es[0]);
            && SkipSpace(b, i) == first.start && ScanValue(b, first.start) == Some(first.end)
            && SkipSpace(b, first.end) == sep && first.end <= sep <= end && (sep == end <==> |es| == 1)
            && (sep < end ==> b[sep] == ',')
  {
    ElementTurn(b, es[0], i);
  }

  /** Scanning an array inverts printing it. */
  lemma ScanPrintedArray(b: string, v: Value, span: Span)
    requires WF(v) && Holds(b, v, span.start) && span.end == span.start + Size(v)
    ensures ArrayElements(b, span) == if v.Arr? then Some(ElemSpans(v.elems, span.start + 1)) else None
  {
    ValueStart(b, v, span.start);
    if v.Arr? {
      ArrayRead(b, span);
      if v.elems == [] {
        SkipTo(b, v.gap, span.start + 1);
      } else {
        FirstInside(b, v.elems, span.start + 1);
        ElementsPrinted(b, v.elems, span.start + 1, span.end - 1);
      }
    }
  }

  /** Between its brackets an array is empty, or its elements are read one by one. */
  lemma ArrayRead(b: string, span: Span)
    requires span.start + 2 <= span.end <= |b| && b[span.start] == '[' && b[span.end - 1] == ']'
    ensures var i := SkipSpace(b, span.start + 1);
            ArrayElements(b, span) == if i == span.end - 1 then Some([]) else Elements(b, i, span.end - 1)
  {
  }

  lemma FirstInside(b: string, es: seq<Elem>, i: nat)
    requires es != [] && WFElems(es) && ElemsHold(b, es, i) && CharAt(b, ']', i + ElemsSize(es))
    ensures SkipSpace(b, i) < i + ElemsSize(es)
  {
    ElementTurn(b, es[0], i);
  }
}
