/**
 Rewriting one member of a request body (ReplaceModelName of config.go), and
 reading members back: every lookup in the bytes is a lookup in the tree.
 */
module Rewrite {
  import opened Text
  import opened JsonScan
  import opened JsonTree
  import opened JsonSplice

  // ----- lookups in the tree -----

  /** The last member of that name: the one a decoder keeps. */
  function LastIndex(ms: seq<Entry>, key: string): (r: Option<nat>)
    ensures r.Some? ==> r.value < |ms| && ms[r.value].key == key
    ensures r.Some? ==> forall j :: r.value < j < |ms| ==> ms[j].key != key
    ensures r.None? ==> forall j :: 0 <= j < |ms| ==> ms[j].key != key
  {
    if ms == [] then None
    else if ms[|ms| - 1].key == key then Some(|ms| - 1)
    else LastIndex(ms[..|ms| - 1], key)
  }

  function Lookup(ms: seq<Entry>, key: string): Option<Value> {
    match LastIndex(ms, key)
    case None => None
    case Some(k) => Some(ms[k].val)
  }

  /** The object as a decoder would leave it in a map. */
  function AsMap(ms: seq<Entry>): map<string, Value> {
    if ms == [] then map[] else AsMap(ms[..|ms| - 1])[ms[|ms| - 1].key := ms[|ms| - 1].val]
  }

  lemma {:induction false} MapLooksUp(ms: seq<Entry>, key: string)
    ensures Lookup(ms, key) == if key in AsMap(ms) then Some(AsMap(ms)[key]) else None
  {
    if ms != [] {
      MapLooksUp(ms[..|ms| - 1], key);
    }
  }

  // ----- lookups in the bytes -----

  lemma {:induction false} SpansIndex(ms: seq<Entry>, i: nat, k: nat)
    requires k < |ms|
    ensures SpansOf(ms, i)[k].key == ms[k].key
    ensures SpansOf(ms, i)[k].end == SpansOf(ms, i)[k].start + Size(ms[k].val)
  {
    if k > 0 {
      SpansIndex(ms[1..], i + EntrySize(ms[0]) + 1, k - 1);
    }
  }

  lemma {:induction false} FindLast(spans: seq<Span>, key: string, k: nat)
    requires k < |spans| && spans[k].key == key
    requires forall j :: k < j < |spans| ==> spans[j].key != key
    ensures Find(spans, key) == Some(spans[k])
    decreases |spans|
  {
    var n := |spans| - 1;
    if k < n {
      FindLast(spans[..n], key, k);
    }
  }

  /** findJSONMember on the scanned spans finds the span of the member the map keeps. */
  lemma FindPrinted(ms: seq<Entry>, i: nat, key: string)
    ensures Find(SpansOf(ms, i), key) ==
            match LastIndex(ms, key)
            case None => None
            case Some(k) => Some(SpansOf(ms, i)[k])
  {
    var spans := SpansOf(ms, i);
    forall j | 0 <= j < |ms|
      ensures spans[j].key == ms[j].key
    {
      SpansIndex(ms, i, j);
    }
    match LastIndex(ms, key) {
      case None =>
        assert forall s :: s in spans ==> s.key != key;
      case Some(k) => FindLast(spans, key, k);
    }
  }

  /** Member `k` lies where its span says. */
  lemma {:induction false} MemberHolds(b: string, ms: seq<Entry>, i: nat, k: nat)
    requires k < |ms| && WFEntries(ms) && EntriesHold(b, ms, i)
    ensures Holds(b, ms[k].val, SpansOf(ms, i)[k].start) && WF(ms[k].val)
    ensures SpansOf(ms, i)[k].end == SpansOf(ms, i)[k].start + Size(ms[k].val)
  {
    if k > 0 {
      MemberHolds(b, ms[1..], i + EntrySize(ms[0]) + 1, k - 1);
    }
  }

  lemma {:induction false} ElementHolds(b: string, es: seq<Elem>, i: nat, k: nat)
    requires k < |es| && WFElems(es) && ElemsHold(b, es, i)
    ensures Holds(b, es[k].val, ElemSpans(es, i)[k].start) && WF(es[k].val)
    ensures ElemSpans(es, i)[k].end == ElemSpans(es, i)[k].start + Size(es[k].val)
  {
    if k > 0 {
      ElementHolds(b, es[1..], i + ElemSize(es[0]) + 1, k - 1);
    }
  }

  lemma {:induction false} ElementInside(es: seq<Elem>, i: nat, k: nat)
    requires k < |es|
    ensures ElemSpans(es, i)[k].end <= i + ElemsSize(es)
  {
    if k > 0 {
      ElementInside(es[1..], i + ElemSize(es[0]) + 1, k - 1);
    }
  }

  /** jsonObjectAt: the object that fills the whole span. */
  function ObjectAt(b: string, span: Span): Option<Object> {
    match ScanObjectAt(b, span.start)
    case None => None
    case Some(obj) => if obj.end + 1 == span.end then Some(obj) else None
  }

  lemma ObjectAtPrinted(b: string, v: Value, span: Span)
    requires WF(v) && Holds(b, v, span.start) && span.end == span.start + Size(v)
    ensures ObjectAt(b, span) ==
            if v.Obj? && PlainKeys(v.members) then Some(Object(SpansOf(v.members, span.start + 1), span.end - 1))
            else None
  {
    ValueStart(b, v, span.start);
    if v.Obj? {
      ScanPrintedObject(b, v.gap, v.members, span.start);
    }
  }

  // ----- decoding strings -----

  /** jsonStringValue; `dec` stands for json.Unmarshal into a string. */
  function StringValue(dec: Decoder, b: string, span: Option<Span>): Option<string> {
    if span.None? || span.value.start >= |b| || span.value.end > |b| || span.value.start >= span.value.end then None
    else if b[span.value.start] != '"' then None
    else dec(b[span.value.start..span.value.end])
  }

  function StringOf(dec: Decoder, v: Option<Value>): Option<string> {
    if v.Some? && v.value.Str? then dec(Quote(v.value.raw)) else None
  }

  lemma StringValuePrinted(dec: Decoder, b: string, v: Value, span: Span)
    requires WF(v) && Holds(b, v, span.start) && span.end == span.start + Size(v) <= |b|
    ensures StringValue(dec, b, Some(span)) == StringOf(dec, Some(v))
  {
    ValueStart(b, v, span.start);
    if v.Str? {
      QuoteLies(b, v.raw, span.start);
      LiesIsAt(b, Quote(v.raw), span.start);
    }
  }

  /** Looking a string member up in the bytes of an object is looking it up in the tree. */
  lemma MemberStringPrinted(dec: Decoder, b: string, ms: seq<Entry>, i: nat, key: string)
    requires WFEntries(ms) && EntriesHold(b, ms, i) && i + EntriesSize(ms) <= |b|
    ensures StringValue(dec, b, Find(SpansOf(ms, i), key)) == StringOf(dec, Lookup(ms, key))
  {
    FindPrinted(ms, i, key);
    match LastIndex(ms, key) {
      case None =>
      case Some(k) =>
        MemberHolds(b, ms, i, k);
        SpanInside(ms, i, k);
        StringValuePrinted(dec, b, ms[k].val, SpansOf(ms, i)[k]);
    }
  }

  lemma {:induction false} SpanInside(ms: seq<Entry>, i: nat, k: nat)
    requires k < |ms|
    ensures i < SpansOf(ms, i)[k].start <= SpansOf(ms, i)[k].end <= i + EntriesSize(ms)
  {
    if k > 0 {
      SpanInside(ms[1..], i + EntrySize(ms[0]) + 1, k - 1);
    }
  }

  predicate IsGoSpace(c: char) {
    c == ' ' || c == '\t' || c == '\n' || c == '\r' || c as int == 11 || c as int == 12
  }

  /** bytes.TrimSpace, for ASCII whitespace. */
  function TrimSpace(s: string): string {
    if s == "" then ""
    else if IsGoSpace(s[0]) then TrimSpace(s[1..])
    else if IsGoSpace(s[|s| - 1]) then TrimSpace(s[..|s| - 1])
    else s
  }

  predicate AllSpace(s: string) {
    forall k :: 0 <= k < |s| ==> s[k] in {' ', '\t', '\n', '\r', '\U{B}', '\U{C}'}
  }

  lemma SpacesGone(s: string)
    requires AllSpace(s)
    ensures TrimSpace(s) == ""
  {
    if s != "" {
      SpacesGone(s[1..]);
    }
  }

  lemma {:induction false} TrimRight(m: string, r: string)
    requires m != "" && !AllSpace([m[0]]) && !AllSpace([m[|m| - 1]]) && AllSpace(r)
    ensures TrimSpace(m + r) == m
    decreases |r|
  {
    var s := m + r;
    assert s[0] == [m[0]][0];
    if r == "" {
      assert s == m && m[|m| - 1] == [m[|m| - 1]][0];
    } else {
      assert s[..|s| - 1] == m + r[..|r| - 1];
      TrimRight(m, r[..|r| - 1]);
    }
  }

  /** Exactly the outer spaces go: what stays begins and ends with another byte, or is empty. */
  lemma {:induction false} TrimLaw(l: string, m: string, r: string)
    requires AllSpace(l) && AllSpace(r)
    requires m == "" || (!AllSpace([m[0]]) && !AllSpace([m[|m| - 1]]))
    ensures TrimSpace(l + m + r) == m
    decreases |l|
  {
    if m == "" {
      SpacesGone(l + m + r);
    } else if l == "" {
      assert l + m + r == m + r;
      TrimRight(m, r);
    } else {
      assert (l + m + r)[1..] == l[1..] + m + r;
      TrimLaw(l[1..], m, r);
    }
  }

  // ----- setting one member -----

  /** What a map update does to the tree: the kept member changes, or a new one is added last. */
  function SetMember(d: Doc, key: string, v: Value): Doc {
    match LastIndex(d.members, key)
    case Some(k) => SetDoc(d, k, v)
    case None => AddToDoc(d, [News(key, v)])
  }

  /** ReplaceModelName; a body the scanner refuses goes through `decoded`, the map form. */
  function ReplaceMember(decoded: (string, string) -> Option<string>, b: string, key: string, value: string)
    : Option<string>
  {
    ObjectBounded(b);
    match ScanObject(b)
    case None => decoded(b, value)
    case Some(obj) =>
      match Find(obj.spans, key)
      case Some(span) => Some(ReplaceJSONValue(b, span, value))
      case None => Some(InsertJSONMember(b, obj.end, key, value))
  }

  function ReplaceModelName(decoded: (string, string) -> Option<string>, b: string, model: string): Option<string> {
    ReplaceMember(decoded, b, "model", model)
  }

  /** The splice is the tree update, byte for byte. */
  lemma ReplaceMemberLaw(decoded: (string, string) -> Option<string>, d: Doc, key: string, v: Value)
    requires WFDoc(d) && PlainKeys(d.members)
    ensures ReplaceMember(decoded, PrintDoc(d), key, Print(v)) == Some(PrintDoc(SetMember(d, key, v)))
  {
    DocLookup(d, key);
    match LastIndex(d.members, key) {
      case Some(k) => ReplaceLaw(d, k, v);
      case None => InsertLaw(d, key, v);
    }
  }

  /** Scanning a printed body and looking `key` up. */
  lemma {:induction false} DocLookup(d: Doc, key: string)
    requires WFDoc(d) && PlainKeys(d.members)
    ensures ScanObject(PrintDoc(d)) == Some(Object(SpansOf(d.members, |d.lead| + 1), DocEnd(d)))
    ensures Find(SpansOf(d.members, |d.lead| + 1), key) ==
            match LastIndex(d.members, key) case None => None case Some(k) => Some(DocSpan(d, k))
  {
    ScanPrintedDoc(d);
    FindPrinted(d.members, |d.lead| + 1, key);
  }

  lemma {:induction false} UpdateLast(ms: seq<Entry>, k: nat, v: Value)
    requires k < |ms| && forall j :: k < j < |ms| ==> ms[j].key != ms[k].key
    ensures AsMap(SetValue(ms, k, v)) == AsMap(ms)[ms[k].key := v]
    decreases |ms|
  {
    var n := |ms| - 1;
    var now := SetValue(ms, k, v);
    if k < n {
      assert now[..n] == SetValue(ms[..n], k, v);
      UpdateLast(ms[..n], k, v);
    } else {
      assert now[..n] == ms[..n];
    }
  }

  lemma {:induction false} PostIgnored(ms: seq<Entry>, ns: seq<Entry>)
    requires |ms| == |ns| && forall j :: 0 <= j < |ms| ==> ms[j].key == ns[j].key && ms[j].val == ns[j].val
    ensures AsMap(ms) == AsMap(ns)
    decreases |ms|
  {
    if ms != [] {
      PostIgnored(ms[..|ms| - 1], ns[..|ns| - 1]);
    }
  }

  lemma AddOne(gap: string, ms: seq<Entry>, key: string, v: Value)
    ensures AsMap(AddEntries(gap, ms, [News(key, v)])) == AsMap(ms)[key := v]
  {
    var now := AddEntries(gap, ms, [News(key, v)]);
    assert now[..|ms|] == if ms == [] then [] else WithPost(ms, "");
    PostIgnored(now[..|ms|], ms);
  }

  /** Read as a map, the body is updated at the key and nowhere else. */
  lemma SetMemberUpdatesMap(d: Doc, key: string, v: Value)
    ensures AsMap(SetMember(d, key, v).members) == AsMap(d.members)[key := v]
  {
    match LastIndex(d.members, key) {
      case Some(k) => UpdateLast(d.members, k, v);
      case None => AddOne(d.gap, d.members, key, v);
    }
  }

  // ----- setting twice -----

  lemma {:induction false} LastIndexIs(ms: seq<Entry>, key: string, k: nat)
    requires k < |ms| && ms[k].key == key && forall j :: k < j < |ms| ==> ms[j].key != key
    ensures LastIndex(ms, key) == Some(k)
  {
  }

  lemma SetMemberFound(d: Doc, key: string, v: Value)
    ensures LastIndex(SetMember(d, key, v).members, key) ==
            match LastIndex(d.members, key) case Some(k) => Some(k) case None => Some(|d.members|)
  {
    var now := SetMember(d, key, v).members;
    match LastIndex(d.members, key) {
      case Some(k) => LastIndexIs(now, key, k);
      case None => LastIndexIs(now, key, |d.members|);
    }
  }

  /** The last value set wins, byte for byte. */
  lemma SetTwice(d: Doc, key: string, v: Value, w: Value)
    ensures SetMember(SetMember(d, key, v), key, w) == SetMember(d, key, w)
  {
    SetMemberFound(d, key, v);
    var twice := SetMember(SetMember(d, key, v), key, w);
    assert twice.members == SetMember(d, key, w).members;
  }

  // ----- updates keep bodies well formed and scannable -----

  lemma {:induction false} EntriesWF(ms: seq<Entry>)
    requires forall k :: 0 <= k < |ms| ==> WFEntry(ms[k])
    ensures WFEntries(ms)
  {
    if ms != [] {
      EntriesWF(ms[1..]);
    }
  }

  lemma {:induction false} ElemsAreWF(es: seq<Elem>)
    requires forall k :: 0 <= k < |es| ==> Blank(es[k].pre) && Blank(es[k].post) && WF(es[k].val)
    ensures WFElems(es)
  {
    if es != [] {
      ElemsAreWF(es[1..]);
    }
  }

  lemma {:induction false} ElemWF(es: seq<Elem>, k: nat)
    requires WFElems(es) && k < |es|
    ensures Blank(es[k].pre) && Blank(es[k].post) && WF(es[k].val)
  {
    if k > 0 {
      ElemWF(es[1..], k - 1);
    }
  }

  lemma FreshArrayWF(vals: seq<Value>)
    requires forall k :: 0 <= k < |vals| ==> WF(vals[k])
    ensures WF(Arr("", FreshElems(vals, "")))
  {
    ElemsAreWF(FreshElems(vals, ""));
  }

  lemma {:induction false} KeysPlain(ms: seq<Entry>)
    requires forall k :: 0 <= k < |ms| ==> '\\' !in ms[k].key
    ensures PlainKeys(ms)
  {
    if ms != [] {
      KeysPlain(ms[1..]);
    }
  }

  lemma {:induction false} KeyPlain(ms: seq<Entry>, k: nat)
    requires PlainKeys(ms) && k < |ms|
    ensures '\\' !in ms[k].key
  {
    if k > 0 {
      KeyPlain(ms[1..], k - 1);
    }
  }

  // ----- members the gateway writes -----

  function Field(key: string, v: Value): Entry { Entry("", key, "", "", v, "") }

  lemma {:induction false} PlainString(s: string)
    requires forall k :: 0 <= k < |s| ==> s[k] != '\\' && s[k] != '"' && s[k] >= ' '
    ensures StringBody(s)
  {
    if s != "" {
      PlainString(s[1..]);
    }
  }

  // One literal a lemma: together they are slow to unfold.
  lemma FunctionWord() ensures StringBody("function") { PlainString("function"); }
  lemma NameWord() ensures StringBody("name") { PlainString("name"); }
  lemma TypeWord() ensures StringBody("type") { PlainString("type"); }
  lemma ModelWord() ensures StringBody("model") && '\\' !in "model" { PlainString("model"); }

  lemma FirstField(key: string, v: Value, rest: seq<Entry>)
    requires '\\' !in key && forall m :: m in rest ==> m.key != key && '\\' !in m.key
    ensures PlainKeys([Field(key, v)] + rest) && Lookup([Field(key, v)] + rest, key) == Some(v)
  {
    LastIndexIs([Field(key, v)] + rest, key, 0);
    KeysPlain([Field(key, v)] + rest);
  }

  // ----- values further inside -----

  /** The value some keys inside, in the order of the path. */
  function Inside(v: Value, path: seq<string>): Option<Value> {
    if path == [] then Some(v)
    else if !v.Obj? then None
    else
      match Lookup(v.members, path[0])
      case None => None
      case Some(w) => Inside(w, path[1..])
  }

  lemma InsideStep(v: Value, key: string, w: Value, rest: seq<string>)
    requires v.Obj? && Lookup(v.members, key) == Some(w)
    ensures Inside(v, [key] + rest) == Inside(w, rest)
  {
    assert ([key] + rest)[1..] == rest;
  }

  lemma OneInside(v: Value, k: string, w: Value)
    requires v.Obj? && Lookup(v.members, k) == Some(w)
    ensures Inside(v, [k]) == Some(w)
  {
    InsideStep(v, k, w, []);
    assert [k] + [] == [k];
  }

  lemma TwoInside(v: Value, k: string, w: Value, l: string, x: Option<Value>)
    requires v.Obj? && Lookup(v.members, k) == Some(w) && Inside(w, [l]) == x
    ensures Inside(v, [k, l]) == x
  {
    InsideStep(v, k, w, [l]);
    assert [k] + [l] == [k, l];
  }

  lemma ThreeInside(v: Value, k: string, w: Value, l: string, m: string, x: Option<Value>)
    requires v.Obj? && Lookup(v.members, k) == Some(w) && Inside(w, [l, m]) == x
    ensures Inside(v, [k, l, m]) == x
  {
    InsideStep(v, k, w, [l, m]);
    assert [k] + [l, m] == [k, l, m];
  }

  lemma FieldsRead(k: string, v: Value, l: string, w: Value)
    requires k != l
    ensures Lookup([Field(k, v), Field(l, w)], k) == Some(v) && Lookup([Field(k, v), Field(l, w)], l) == Some(w)
  {
    LastIndexIs([Field(k, v), Field(l, w)], k, 0);
    LastIndexIs([Field(k, v), Field(l, w)], l, 1);
  }

  lemma MemberRead(v: Value, key: string)
    ensures Inside(v, [key]) == if v.Obj? then Lookup(v.members, key) else None
  {
    if v.Obj? && Lookup(v.members, key).Some? {
      OneInside(v, key, Lookup(v.members, key).value);
    }
  }

  lemma SetDocKeeps(d: Doc, k: nat, v: Value)
    requires WFDoc(d) && PlainKeys(d.members) && k < |d.members| && WF(v)
    ensures WFDoc(SetDoc(d, k, v)) && PlainKeys(SetDoc(d, k, v).members)
  {
    var now := SetDoc(d, k, v).members;
    forall j | 0 <= j < |now|
      ensures WFEntry(now[j]) && '\\' !in now[j].key
    {
      EntryWF(d.members, j);
      KeyPlain(d.members, j);
    }
    EntriesWF(now);
    KeysPlain(now);
  }

  lemma AddToDocKeeps(d: Doc, news: seq<News>)
    requires WFDoc(d) && PlainKeys(d.members)
    requires forall n :: n in news ==> WF(n.val) && StringBody(n.key) && '\\' !in n.key
    ensures WFDoc(AddToDoc(d, news)) && PlainKeys(AddToDoc(d, news).members)
  {
    var now := AddToDoc(d, news).members;
    var n := |d.members|;
    if n > 0 {
      LastEntryWF(d.members);
    }
    forall j | 0 <= j < |now|
      ensures WFEntry(now[j]) && '\\' !in now[j].key
    {
      if j < n {
        EntryWF(d.members, j);
        KeyPlain(d.members, j);
      } else {
        assert news[j - n] in news;
      }
    }
    EntriesWF(now);
    KeysPlain(now);
  }

  lemma SetMemberKeeps(d: Doc, key: string, v: Value)
    requires WFDoc(d) && PlainKeys(d.members) && WF(v) && StringBody(key) && '\\' !in key
    ensures WFDoc(SetMember(d, key, v)) && PlainKeys(SetMember(d, key, v).members)
  {
    match LastIndex(d.members, key) {
      case Some(k) => SetDocKeeps(d, k, v);
      case None => AddToDocKeeps(d, [News(key, v)]);
    }
  }

  lemma ReplaceTwice(decoded: (string, string) -> Option<string>, d: Doc, key: string, v: Value, w: Value)
    requires WFDoc(d) && PlainKeys(d.members) && WF(v) && StringBody(key) && '\\' !in key
    ensures var once := ReplaceMember(decoded, PrintDoc(d), key, Print(v));
            && once.Some?
            && ReplaceMember(decoded, once.value, key, Print(w)) == ReplaceMember(decoded, PrintDoc(d), key, Print(w))
  {
    ReplaceMemberLaw(decoded, d, key, v);
    ReplaceMemberLaw(decoded, d, key, w);
    SetMemberKeeps(d, key, v);
    ReplaceMemberLaw(decoded, SetMember(d, key, v), key, w);
    SetTwice(d, key, v, w);
  }

  /** Replacing the model twice is replacing it once by the last name. */
  lemma ReplaceModelTwice(decoded: (string, string) -> Option<string>, d: Doc, v: Value, w: Value)
    requires WFDoc(d) && PlainKeys(d.members) && WF(v)
    ensures ReplaceModelName(decoded, PrintDoc(d), Print(v)).Some?
    ensures ReplaceModelName(decoded, ReplaceModelName(decoded, PrintDoc(d), Print(v)).value, Print(w)) ==
            ReplaceModelName(decoded, PrintDoc(d), Print(w))
  {
    ModelWord();
    ReplaceTwice(decoded, d, "model", v, w);
  }

  lemma ReplaceOnce(decoded: (string, string) -> Option<string>, d: Doc, key: string, v: Value) returns (e: Doc)
    requires WFDoc(d) && PlainKeys(d.members) && WF(v) && StringBody(key) && '\\' !in key
    ensures WFDoc(e) && AsMap(e.members) == AsMap(d.members)[key := v]
    ensures ReplaceMember(decoded, PrintDoc(d), key, Print(v)) == Some(PrintDoc(e))
  {
    ReplaceMemberLaw(decoded, d, key, v);
    SetMemberKeeps(d, key, v);
    SetMemberUpdatesMap(d, key, v);
    e := SetMember(d, key, v);
  }

  /** The body that comes out is one whose map has the model replaced and nothing else. */
  lemma ReplaceModelLaw(decoded: (string, string) -> Option<string>, d: Doc, v: Value)
    requires WFDoc(d) && PlainKeys(d.members) && WF(v)
    ensures exists e :: WFDoc(e) && AsMap(e.members) == AsMap(d.members)["model" := v]
                        && ReplaceModelName(decoded, PrintDoc(d), Print(v)) == Some(PrintDoc(e))
  {
    ModelWord();
    var e := ReplaceOnce(decoded, d, "model", v);
  }
}
