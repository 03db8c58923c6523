/**
 The OpenCode gate rewrite of config.go (opencodeGateBody): force `stream` on
 and append the two gate tools, by splicing the raw body.
 */
module Gate {
  import opened Text
  import opened JsonScan
  import opened JsonTree
  import opened JsonSplice
  import opened JsonEdits
  import opened Rewrite

  // ----- reading the body -----

  predicate IsTrue(text: string) { TrimSpace(text) == "true" }

  /** The name under function.name, if both levels are there. */
  function FunctionName(dec: Decoder, b: string, spans: seq<Span>): Option<string> {
    match Find(spans, "function")
    case None => None
    case Some(span) =>
      match ObjectAt(b, span)
      case None => None
      case Some(fn) => StringValue(dec, b, Find(fn.spans, "name"))
  }

  /** jsonToolName */
  function ToolName(dec: Decoder, b: string, span: Span): string {
    match ObjectAt(b, span)
    case None => ""
    case Some(obj) =>
      match FunctionName(dec, b, obj.spans)
      case Some(name) => name
      case None => Or(StringValue(dec, b, Find(obj.spans, "name")), "")
  }

  function Or(s: Option<string>, default: string): string {
    match s case Some(v) => v case None => default
  }

  predicate HasTool(dec: Decoder, b: string, elems: seq<Span>, name: string) {
    exists k :: 0 <= k < |elems| && ToolName(dec, b, elems[k]) == name
  }

  // ----- the gate tools -----

  function PathSchema(): Value { Obj("", [Field("path", Obj("", [Field("type", Str("string"))]))]) }

  function Parameters(): Value { Obj("", [Field("type", Str("object")), Field("properties", PathSchema())]) }

  function GateFunction(name: string): Value {
    Obj("", [
      Field("name", Str(name)),
      Field("description", Str("opencode gate tool")),
      Field("parameters", Parameters())
    ])
  }

  /** json.Marshal(opencodeGateTool(name)): keys of the outer map in order. */
  function GateTool(name: string): Value {
    Obj("", [Field("function", GateFunction(name)), Field("type", Str("function"))])
  }

  /** The tools still missing, in the order the source tries them. */
  function Missing(bash: bool, read: bool): seq<Value> {
    (if bash then [] else [GateTool("bash")]) + (if read then [] else [GateTool("read")])
  }

  // ----- the edits -----

  /** What the rewrite decides: keep the body, or apply edits to it. */
  datatype Plan = Keep | Rewrite(edits: seq<Edit>)

  function StreamEdits(stream: Option<Span>, on: bool): seq<Edit> {
    if stream.Some? && !on then [Edit(stream.value.start, stream.value.end, "true")] else []
  }

  function ArrayText(texts: seq<string>): string { "[" + Join(texts) + "]" }

  function ToolsEdits(b: string, tools: Option<Span>, elems: Option<seq<Span>>, add: seq<Value>): Option<seq<Edit>> {
    if add == [] || tools.None? then Some([])
    else if elems.Some? then
      match ArrayInsertion(b, tools.value)
      case None => None
      case Some(at) => Some([Edit(at, at, (if elems.value == [] then "" else ",") + Join(Map(Print, add)))])
    else Some([Edit(tools.value.start, tools.value.end, ArrayText(Map(Print, add)))])
  }

  function Inserted(stream: Option<Span>, tools: Option<Span>, add: seq<Value>): seq<News> {
    (if stream.None? then [News("stream", Scalar("true"))] else []) +
    (if add != [] && tools.None? then [News("tools", Arr("", FreshElems(add, "")))] else [])
  }

  function InsertEdits(b: string, obj: Object, news: seq<News>): seq<Edit>
    requires obj.end <= |b|
  {
    if news == [] then []
    else
      var at := CutBack(b, 0, obj.end);
      [Edit(at, at, (if obj.spans == [] then "" else ",") + Join(NewsTexts(news)))]
  }

  function GatePlan(dec: Decoder, b: string): Plan {
    match ScanObject(b)
    case None => Keep
    case Some(obj) =>
      ObjectBounded(b);
      var stream := Find(obj.spans, "stream");
      var tools := Find(obj.spans, "tools");
      var on := stream.Some? && IsTrue(b[stream.value.start..stream.value.end]);
      var elems := if tools.Some? then ArrayElements(b, tools.value) else None;
      var bash := elems.Some? && HasTool(dec, b, elems.value, "bash");
      var read := elems.Some? && HasTool(dec, b, elems.value, "read");
      Decide(b, obj, stream, on, tools, elems, bash, read)
  }

  /** The edits, once the two members have been read. */
  function Decide(b: string, obj: Object, stream: Option<Span>, on: bool,
                  tools: Option<Span>, elems: Option<seq<Span>>, bash: bool, read: bool): Plan
    requires obj.end <= |b|
  {
    if on && bash && read then Keep
    else
      var add := Missing(bash, read);
      match ToolsEdits(b, tools, elems, add)
      case None => Keep
      case Some(toolsEdits) =>
        Rewrite(StreamEdits(stream, on) + toolsEdits + InsertEdits(b, obj, Inserted(stream, tools, add)))
  }

  // ----- the method -----

  method HaveGateTools(dec: Decoder, body: string, elems: seq<Span>) returns (bash: bool, read: bool)
    ensures bash == HasTool(dec, body, elems, "bash") && read == HasTool(dec, body, elems, "read")
  {
    bash, read := false, false;
    for i := 0 to |elems|
      invariant bash == HasTool(dec, body, elems[..i], "bash")
      invariant read == HasTool(dec, body, elems[..i], "read")
    {
      var name := ToolName(dec, body, elems[i]);
      HasToolMore(dec, body, elems, i, "bash");
      HasToolMore(dec, body, elems, i, "read");
      if name == "bash" {
        bash := true;
      } else if name == "read" {
        read := true;
      }
    }
    assert elems[..|elems|] == elems;
  }

  lemma HasToolMore(dec: Decoder, b: string, elems: seq<Span>, i: nat, name: string)
    requires i < |elems|
    ensures HasTool(dec, b, elems[..i + 1], name) <==>
            HasTool(dec, b, elems[..i], name) || ToolName(dec, b, elems[i]) == name
  {
    assert elems[..i + 1] == elems[..i] + [elems[i]];
    SomeMore(elems[..i], elems[i], elems[..i + 1], s => ToolName(dec, b, s) == name);
  }

  lemma SomeMore(before: seq<Span>, last: Span, all: seq<Span>, p: Span -> bool)
    requires all == before + [last]
    ensures (exists k :: 0 <= k < |all| && p(all[k])) <==> (exists k :: 0 <= k < |before| && p(before[k])) || p(last)
  {
    if k :| 0 <= k < |before| && p(before[k]) {
      assert all[k] == before[k];
    }
    assert all[|before|] == last;
  }

  method PlanGate(dec: Decoder, body: string) returns (plan: Plan)
    ensures plan == GatePlan(dec, body)
  {
    var obj, ok := ScanJSONObject(body);
    if !ok {
      return Keep;
    }
    ObjectBounded(body);
    var stream := FindJSONMember(obj, "stream");
    var on := stream.Some? && IsTrue(body[stream.value.start..stream.value.end]);
    var tools := FindJSONMember(obj, "tools");
    var elems, bash, read := None, false, false;
    if tools.Some? {
      var spans, isArray := JSONArrayElements(body, tools.value);
      if isArray {
        elems := Some(spans);
        bash, read := HaveGateTools(dec, body, spans);
      }
    }
    return Decide(body, obj, stream, on, tools, elems, bash, read);
  }

  // ----- the rewrite on the tree -----

  function FunctionNameOf(dec: Decoder, ms: seq<Entry>): Option<string> {
    match Lookup(ms, "function")
    case None => None
    case Some(v) =>
      if v.Obj? && PlainKeys(v.members) then StringOf(dec, Lookup(v.members, "name")) else None
  }

  function ToolNameOf(dec: Decoder, v: Value): string {
    if !v.Obj? || !PlainKeys(v.members) then ""
    else
      match FunctionNameOf(dec, v.members)
      case Some(name) => name
      case None => Or(StringOf(dec, Lookup(v.members, "name")), "")
  }

  predicate HasToolOf(dec: Decoder, tools: Option<Value>, name: string) {
    tools.Some? && tools.value.Arr? &&
    exists k :: 0 <= k < |tools.value.elems| && ToolNameOf(dec, tools.value.elems[k].val) == name
  }

  predicate StreamOn(stream: Option<Value>) { stream.Some? && IsTrue(Print(stream.value)) }

  /** The gate is open: it streams and carries both tools. */
  predicate Open(dec: Decoder, d: Doc) {
    var tools := Lookup(d.members, "tools");
    StreamOn(Lookup(d.members, "stream")) && HasToolOf(dec, tools, "bash") && HasToolOf(dec, tools, "read")
  }

  function MissingOf(dec: Decoder, d: Doc): seq<Value> {
    var tools := Lookup(d.members, "tools");
    Missing(HasToolOf(dec, tools, "bash"), HasToolOf(dec, tools, "read"))
  }

  function WithTools(tools: Value, add: seq<Value>): Value {
    if add == [] then tools
    else if tools.Arr? then Arr(tools.gap, AddElems(tools.gap, tools.elems, add))
    else Arr("", FreshElems(add, ""))
  }

  /** Members that are there are changed in place. */
  function GateValues(dec: Decoder, d: Doc): Doc {
    var add := MissingOf(dec, d);
    var d1 := match LastIndex(d.members, "stream")
              case Some(k) => if StreamOn(Lookup(d.members, "stream")) then d else SetDoc(d, k, Scalar("true"))
              case None => d;
    match LastIndex(d.members, "tools")
    case Some(k) => if add == [] then d1 else SetDoc(d1, k, WithTools(d.members[k].val, add))
    case None => d1
  }

  /** Members that are not there are added last. */
  function GateNews(dec: Decoder, d: Doc): seq<News> {
    var add := MissingOf(dec, d);
    (if LastIndex(d.members, "stream").None? then [News("stream", Scalar("true"))] else []) +
    (if add != [] && LastIndex(d.members, "tools").None? then [News("tools", Arr("", FreshElems(add, "")))] else [])
  }

  function GateDoc(dec: Decoder, d: Doc): Doc {
    if Open(dec, d) then d
    else if GateNews(dec, d) == [] then GateValues(dec, d)
    else AddToDoc(GateValues(dec, d), GateNews(dec, d))
  }

  // ----- lookups agree -----

  lemma FunctionNamePrinted(dec: Decoder, b: string, ms: seq<Entry>, i: nat)
    requires WFEntries(ms) && EntriesHold(b, ms, i) && i + EntriesSize(ms) <= |b|
    ensures FunctionName(dec, b, SpansOf(ms, i)) == FunctionNameOf(dec, ms)
  {
    FindPrinted(ms, i, "function");
    match LastIndex(ms, "function") {
      case None =>
      case Some(k) =>
        MemberHolds(b, ms, i, k);
        SpanInside(ms, i, k);
        ObjectMembersPrinted(dec, b, ms[k].val, SpansOf(ms, i)[k], "name");
    }
  }

  /** A string member of an object value, found in the bytes and in the tree. */
  lemma ObjectMembersPrinted(dec: Decoder, b: string, v: Value, span: Span, key: string)
    requires WF(v) && Holds(b, v, span.start) && span.end == span.start + Size(v) <= |b|
    ensures ObjectAt(b, span).Some? <==> v.Obj? && PlainKeys(v.members)
    ensures ObjectAt(b, span).Some? ==>
              StringValue(dec, b, Find(ObjectAt(b, span).value.spans, key)) == StringOf(dec, Lookup(v.members, key))
  {
    ObjectAtPrinted(b, v, span);
    if v.Obj? && PlainKeys(v.members) {
      if v.members == [] {
        FindPrinted(v.members, span.start + 1, key);
      } else {
        MemberStringPrinted(dec, b, v.members, span.start + 1, key);
      }
    }
  }

  /** The name read from the bytes of a printed tool is the name in its tree. */
  lemma ToolNamePrinted(dec: Decoder, b: string, v: Value, span: Span)
    requires WF(v) && Holds(b, v, span.start) && span.end == span.start + Size(v) <= |b|
    ensures ToolName(dec, b, span) == ToolNameOf(dec, v)
  {
    ObjectMembersPrinted(dec, b, v, span, "name");
    ObjectAtPrinted(b, v, span);
    if v.Obj? && PlainKeys(v.members) {
      FunctionOfPrinted(dec, b, v, span);
    }
  }

  lemma FunctionOfPrinted(dec: Decoder, b: string, v: Value, span: Span)
    requires WF(v) && Holds(b, v, span.start) && span.end == span.start + Size(v) <= |b| && v.Obj?
    ensures FunctionName(dec, b, SpansOf(v.members, span.start + 1)) == FunctionNameOf(dec, v.members)
  {
    if v.members == [] {
      FindPrinted(v.members, span.start + 1, "function");
    } else {
      FunctionNamePrinted(dec, b, v.members, span.start + 1);
    }
  }

  lemma HasToolPrinted(dec: Decoder, b: string, v: Value, i: nat, name: string)
    requires v.Arr? && WF(v) && Holds(b, v, i)
    ensures HasTool(dec, b, ElemSpans(v.elems, i + 1), name) == HasToolOf(dec, Some(v), name)
  {
    var spans := ElemSpans(v.elems, i + 1);
    forall k | 0 <= k < |v.elems|
      ensures ToolName(dec, b, spans[k]) == ToolNameOf(dec, v.elems[k].val)
    {
      ElementHolds(b, v.elems, i + 1, k);
      ElementInside(v.elems, i + 1, k);
      ToolNamePrinted(dec, b, v.elems[k].val, spans[k]);
    }
  }

  // ----- members of a printed body -----

  lemma DocMember(d: Doc, k: nat)
    requires WFDoc(d) && k < |d.members|
    ensures var b, span, v := PrintDoc(d), DocSpan(d, k), d.members[k].val;
            && span.end == span.start + Size(v) <= |b|
            && WF(v) && Holds(b, v, span.start)
            && b[span.start..span.end] == Print(v)
  {
    DocMemberHolds(d, k);
    DocSpanIs(d, k);
    Middle(PrintDoc(d), DocLeft(d, k), Print(d.members[k].val), DocRight(d, k), DocSpan(d, k).start, DocSpan(d, k).end);
  }

  lemma {:induction false} DocMemberHolds(d: Doc, k: nat)
    requires WFDoc(d) && k < |d.members|
    ensures var span, v := DocSpan(d, k), d.members[k].val;
            WF(v) && Holds(PrintDoc(d), v, span.start) && span.end == span.start + Size(v)
  {
    DocHolds(d);
    HeldMember(PrintDoc(d), Obj(d.gap, d.members), |d.lead|, k);
  }

  lemma {:induction false} HeldMember(b: string, v: Value, i: nat, k: nat)
    requires v.Obj? && k < |v.members| && WF(v) && Holds(b, v, i)
    ensures var span, w := SpansOf(v.members, i + 1)[k], v.members[k].val;
            WF(w) && Holds(b, w, span.start) && span.end == span.start + Size(w)
  {
    MemberHolds(b, v.members, i + 1, k);
  }

  lemma Middle(b: string, l: string, m: string, r: string, i: nat, j: nat)
    requires b == l + m + r && i == |l| && j == i + |m|
    ensures j <= |b| && b[i..j] == m
  {
  }

  // ----- edits as tree updates -----

  /** `e`, placed inside the value of member `k`, turns that value into `v`. */
  predicate Realizes(d: Doc, k: nat, e: Edit, v: Value) {
    && k < |d.members|
    && var p, text := DocSpan(d, k).start, Print(d.members[k].val);
       p <= e.start <= e.end <= p + |text| && e.start < p + |text|
       && Print(v) == Splice(text, e.start - p, e.end - p, e.replacement)
  }

  /** `e` adds `news` to the body. */
  predicate Adds(d: Doc, e: Edit, news: seq<News>) {
    && news != []
    && e == Edit(InsertionPoint(d), InsertionPoint(d), Separator(d.members) + Join(NewsTexts(news)))
  }

  lemma {:induction false} LeftSame(ms: seq<Entry>, ns: seq<Entry>, k: nat)
    requires k < |ms| && k < |ns| && (forall j :: 0 <= j < k ==> ms[j] == ns[j])
    requires KeyPart(ms[k]) == KeyPart(ns[k])
    ensures Left(ms, k) == Left(ns, k)
  {
    if k > 0 {
      LeftSame(ms[1..], ns[1..], k - 1);
    }
  }

  /** An edit of member `k` fits every body that agrees up to that member's value. */
  lemma StillRealizes(d: Doc, f: Doc, k: nat, e: Edit, v: Value)
    requires Realizes(d, k, e, v) && d.lead == f.lead && k < |f.members|
    requires forall j :: 0 <= j < k ==> d.members[j] == f.members[j]
    requires KeyPart(d.members[k]) == KeyPart(f.members[k]) && d.members[k].val == f.members[k].val
    ensures Realizes(f, k, e, v)
  {
    SameStart(d, f, k);
  }

  lemma SameStart(d: Doc, f: Doc, k: nat)
    requires d.lead == f.lead && k < |d.members| && k < |f.members|
    requires forall j :: 0 <= j < k ==> d.members[j] == f.members[j]
    requires KeyPart(d.members[k]) == KeyPart(f.members[k])
    ensures DocSpan(d, k).start == DocSpan(f, k).start
  {
    LeftSame(d.members, f.members, k);
    DocSpanIs(d, k);
    DocSpanIs(f, k);
  }

  /** The edit, relative to the text of the value. */
  predicate Fits(l: string, m: string, e: Edit, n: string) {
    && |l| <= e.start <= e.end <= |l| + |m|
    && Splice(m, e.start - |l|, e.end - |l|, e.replacement) == n
  }

  lemma RealizesText(d: Doc, k: nat, e: Edit, v: Value)
    requires Realizes(d, k, e, v)
    ensures Fits(DocLeft(d, k), Print(d.members[k].val), e, Print(v))
  {
    DocSpanIs(d, k);
  }

  lemma SpliceFits(l: string, m: string, r: string, e: Edit, n: string)
    requires Fits(l, m, e, n)
    ensures SplicesTo(l + m + r, e, l + n + r)
  {
    SpliceMiddle(l, m, r, e.start - |l|, e.end - |l|, e.replacement);
  }

  lemma RealizeOne(d: Doc, k: nat, e: Edit, v: Value)
    requires Realizes(d, k, e, v)
    ensures SplicesTo(PrintDoc(d), e, PrintDoc(SetDoc(d, k, v)))
  {
    RealizesText(d, k, e, v);
    assert PrintDoc(d) == DocLeft(d, k) + Print(d.members[k].val) + DocRight(d, k) by { DocSpanIs(d, k); }
    DocAround(d, k, v);
    SpliceFits(DocLeft(d, k), Print(d.members[k].val), DocRight(d, k), e, Print(v));
  }

  lemma RealizesInside(d: Doc, k: nat, e: Edit, v: Value)
    requires Realizes(d, k, e, v)
    ensures DocSpan(d, k).start <= e.start <= e.end <= DocSpan(d, k).end && e.start < DocSpan(d, k).end
  {
    DocSpanIs(d, k);
  }

  lemma RealizesInRange(d: Doc, k: nat, e: Edit, v: Value)
    requires Realizes(d, k, e, v)
    ensures InRange(|PrintDoc(d)|, e)
  {
    RealizeOne(d, k, e, v);
  }

  lemma {:induction false} SpansInOrder(ms: seq<Entry>, i: nat, j: nat, k: nat)
    requires j < k < |ms|
    ensures SpansOf(ms, i)[j].end < SpansOf(ms, i)[k].start
  {
    if j == 0 {
      SpanInside(ms[1..], i + EntrySize(ms[0]) + 1, k - 1);
    } else {
      SpansInOrder(ms[1..], i + EntrySize(ms[0]) + 1, j - 1, k - 1);
    }
  }

  lemma SetCommutes(d: Doc, j: nat, v: Value, k: nat, w: Value)
    requires j < |d.members| && k < |d.members| && j != k
    ensures SetDoc(SetDoc(d, j, v), k, w) == SetDoc(SetDoc(d, k, w), j, v)
  {
  }

  /** Edits of two members, the earlier one first in the body. */
  lemma RealizeTwo(d: Doc, j: nat, e: Edit, v: Value, k: nat, f: Edit, w: Value)
    requires Realizes(d, j, e, v) && Realizes(d, k, f, w) && j < k
    ensures EditsTo(PrintDoc(d), [e, f], PrintDoc(SetDoc(SetDoc(d, j, v), k, w)))
    ensures EditsTo(PrintDoc(d), [f, e], PrintDoc(SetDoc(SetDoc(d, j, v), k, w)))
  {
    var later := SetDoc(d, k, w);
    RealizesInside(d, j, e, v);
    RealizesInRange(d, j, e, v);
    RealizesInside(d, k, f, w);
    SpansInOrder(d.members, |d.lead| + 1, j, k);
    RealizeOne(d, k, f, w);
    StillRealizes(d, later, j, e, v);
    RealizeOne(later, j, e, v);
    SetCommutes(d, j, v, k, w);
    ApplyTwo(PrintDoc(d), e, f, PrintDoc(later), PrintDoc(SetDoc(later, j, v)));
  }

  lemma AddCommutes(d: Doc, k: nat, v: Value, news: seq<News>)
    requires k < |d.members|
    ensures SetDoc(AddToDoc(d, news), k, v) == AddToDoc(SetDoc(d, k, v), news)
  {
    assert SetDoc(AddToDoc(d, news), k, v).members == AddToDoc(SetDoc(d, k, v), news).members;
  }

  lemma BareSize(ms: seq<Entry>)
    requires ms != []
    ensures |Bare(ms)| == EntriesSize(WithPost(ms, ""))
  {
    var bare := WithPost(ms, "");
    LiesWhole(PrintEntries(bare));
    PrintEntriesHold(PrintEntries(bare), bare, 0);
  }

  lemma BareSpanInside(ms: seq<Entry>, i: nat, k: nat)
    requires k < |ms|
    ensures SpansOf(WithPost(ms, ""), i)[k].end <= i + |Bare(ms)|
  {
    SpanInside(WithPost(ms, ""), i, k);
    BareSize(ms);
  }

  /** Where a value ends does not depend on the whitespace behind the last member. */
  lemma BareSpanSame(ms: seq<Entry>, i: nat, k: nat)
    requires k < |ms|
    ensures SpansOf(ms, i)[k].end == SpansOf(WithPost(ms, ""), i)[k].end
  {
    var bare := WithPost(ms, "");
    assert bare[k].val == ms[k].val && KeyPart(bare[k]) == KeyPart(ms[k]);
    LeftSame(ms, bare, k);
    SpanAround(ms, i, k);
    SpanAround(bare, i, k);
  }

  /** Every member ends before the insertion point. */
  lemma SpanBeforeInsertion(d: Doc, k: nat)
    requires k < |d.members|
    ensures DocSpan(d, k).end <= InsertionPoint(d)
  {
    BareSpanSame(d.members, |d.lead| + 1, k);
    BareSpanInside(d.members, |d.lead| + 1, k);
  }

  lemma AddOnce(d: Doc, f: Edit, news: seq<News>)
    requires Adds(d, f, news)
    ensures SplicesTo(PrintDoc(d), f, PrintDoc(AddToDoc(d, news)))
  {
    AddLaw(d, news);
  }

  lemma AddKeeps(d: Doc, news: seq<News>, k: nat, e: Edit, v: Value)
    requires Realizes(d, k, e, v)
    ensures Realizes(AddToDoc(d, news), k, e, v)
  {
    var more := AddToDoc(d, news);
    assert more.members[k].val == d.members[k].val && KeyPart(more.members[k]) == KeyPart(d.members[k]);
    StillRealizes(d, more, k, e, v);
  }

  lemma RealizeAndAdd(d: Doc, k: nat, e: Edit, v: Value, f: Edit, news: seq<News>)
    requires Realizes(d, k, e, v) && Adds(d, f, news)
    ensures EditsTo(PrintDoc(d), [e, f], PrintDoc(AddToDoc(SetDoc(d, k, v), news)))
  {
    var more := AddToDoc(d, news);
    assert e.start < f.start && e.end <= f.start by {
      RealizesInside(d, k, e, v);
      SpanBeforeInsertion(d, k);
    }
    RealizesInRange(d, k, e, v);
    AddOnce(d, f, news);
    AddKeeps(d, news, k, e, v);
    RealizeOne(more, k, e, v);
    AddCommutes(d, k, v, news);
    ApplyTwo(PrintDoc(d), e, f, PrintDoc(more), PrintDoc(SetDoc(more, k, v)));
  }

  // ----- what the rewrite reads in a printed body -----

  function MemberSpan(d: Doc, key: string): Option<Span> {
    match LastIndex(d.members, key) case None => None case Some(k) => Some(DocSpan(d, k))
  }

  /** The elements the rewrite sees: those of an array, none otherwise. */
  function ToolSpans(d: Doc): Option<seq<Span>> {
    match LastIndex(d.members, "tools")
    case None => None
    case Some(k) =>
      var v := d.members[k].val;
      if v.Arr? then Some(ElemSpans(v.elems, DocSpan(d, k).start + 1)) else None
  }

  predicate OnIn(b: string, stream: Option<Span>) {
    stream.Some? && stream.value.start <= stream.value.end <= |b| &&
    IsTrue(b[stream.value.start..stream.value.end])
  }

  lemma StreamRead(d: Doc)
    requires WFDoc(d)
    ensures OnIn(PrintDoc(d), MemberSpan(d, "stream")) == StreamOn(Lookup(d.members, "stream"))
  {
    match LastIndex(d.members, "stream") {
      case None =>
      case Some(k) => DocMember(d, k);
    }
  }

  lemma ToolsRead(dec: Decoder, d: Doc)
    requires WFDoc(d)
    ensures var b, tools := PrintDoc(d), MemberSpan(d, "tools");
            && (tools.Some? ==> ArrayElements(b, tools.value) == ToolSpans(d))
            && (tools.None? ==> ToolSpans(d).None?)
  {
    match LastIndex(d.members, "tools") {
      case None =>
      case Some(k) =>
        DocMember(d, k);
        ScanPrintedArray(PrintDoc(d), d.members[k].val, DocSpan(d, k));
    }
  }

  lemma NamesRead(dec: Decoder, d: Doc, name: string)
    requires WFDoc(d)
    ensures (ToolSpans(d).Some? && HasTool(dec, PrintDoc(d), ToolSpans(d).value, name)) ==
            HasToolOf(dec, Lookup(d.members, "tools"), name)
  {
    match LastIndex(d.members, "tools") {
      case None =>
      case Some(k) =>
        if d.members[k].val.Arr? {
          DocMember(d, k);
          HasToolPrinted(dec, PrintDoc(d), d.members[k].val, DocSpan(d, k).start, name);
        }
    }
  }

  /** On a printed body, the plan is decided by the tree. */
  lemma GateRead(dec: Decoder, d: Doc)
    requires WFDoc(d) && PlainKeys(d.members)
    ensures DocEnd(d) <= |PrintDoc(d)|
    ensures var tools := Lookup(d.members, "tools");
            GatePlan(dec, PrintDoc(d)) ==
            Decide(PrintDoc(d), Object(SpansOf(d.members, |d.lead| + 1), DocEnd(d)),
                   MemberSpan(d, "stream"), StreamOn(Lookup(d.members, "stream")),
                   MemberSpan(d, "tools"), ToolSpans(d),
                   HasToolOf(dec, tools, "bash"), HasToolOf(dec, tools, "read"))
  {
    DocLookup(d, "stream");
    DocLookup(d, "tools");
    ObjectBounded(PrintDoc(d));
    StreamRead(d);
    ToolsRead(dec, d);
    NamesRead(dec, d, "bash");
    NamesRead(dec, d, "read");
  }

  // ----- each edit does its part -----

  lemma RealizesWhole(d: Doc, k: nat, v: Value)
    requires WFDoc(d) && k < |d.members|
    ensures Realizes(d, k, Edit(DocSpan(d, k).start, DocSpan(d, k).end, Print(v)), v)
  {
    var text := Print(d.members[k].val);
    DocSpanIs(d, k);
    EntryWF(d.members, k);
    ValueEndsSolid(d.members[k].val);
    SpliceAll(text, Print(v));
  }

  lemma ArrayTextPrinted(add: seq<Value>)
    requires add != []
    ensures ArrayText(Map(Print, add)) == Print(Arr("", FreshElems(add, "")))
  {
    PrintFreshElems(add, "");
    assert Join(Map(Print, add)) + "" == Join(Map(Print, add));
  }

  lemma RealizesMore(d: Doc, k: nat, add: seq<Value>)
    requires WFDoc(d) && k < |d.members| && d.members[k].val.Arr? && add != []
    ensures var Arr(gap, es) := d.members[k].val;
            var at := DocSpan(d, k).start + 1 + |BareElems(es)|;
            Realizes(d, k, Edit(at, at, ElemSeparator(es) + Join(Map(Print, add))), Arr(gap, AddElems(gap, es, add)))
  {
    var Arr(gap, es) := d.members[k].val;
    AddElemsLaw(gap, es, add);
    BareInArray(gap, es);
  }

  lemma BareInArray(gap: string, es: seq<Elem>)
    ensures 1 + |BareElems(es)| < |Print(Arr(gap, es))|
  {
    BareElemsInside(gap, es);
  }

  lemma ToolsRealized(d: Doc, k: nat, add: seq<Value>)
    requires WFDoc(d) && LastIndex(d.members, "tools") == Some(k) && add != []
    ensures var edits := ToolsEdits(PrintDoc(d), MemberSpan(d, "tools"), ToolSpans(d), add);
            && edits.Some? && |edits.value| == 1
            && Realizes(d, k, edits.value[0], WithTools(d.members[k].val, add))
  {
    if d.members[k].val.Arr? {
      ArrayInsertionFound(d, k);
      RealizesMore(d, k, add);
    } else {
      ArrayTextPrinted(add);
      RealizesWhole(d, k, WithTools(d.members[k].val, add));
    }
  }

  lemma InsertAdds(d: Doc, news: seq<News>)
    requires WFDoc(d) && news != []
    ensures DocEnd(d) <= |PrintDoc(d)|
    ensures var edits := InsertEdits(PrintDoc(d), Object(SpansOf(d.members, |d.lead| + 1), DocEnd(d)), news);
            |edits| == 1 && Adds(d, edits[0], news)
  {
    InsertionPointFound(d);
  }

  lemma NewsRead(dec: Decoder, d: Doc)
    ensures Inserted(MemberSpan(d, "stream"), MemberSpan(d, "tools"), MissingOf(dec, d)) == GateNews(dec, d)
  {
  }

  // ----- the law -----

  /** The plan keeps the body, or its edits are accepted and print the gated tree. */
  predicate Yields(plan: Plan, d: Doc, f: Doc) {
    match plan
    case Keep => f == d
    case Rewrite(edits) => EditsTo(PrintDoc(d), edits, PrintDoc(f))
  }

  function SetIf(d: Doc, k: Option<nat>, v: Value): Doc
    requires k.Some? ==> k.value < |d.members|
  {
    if k.Some? then SetDoc(d, k.value, v) else d
  }

  function AddIf(d: Doc, news: seq<News>): Doc { if news == [] then d else AddToDoc(d, news) }

  /** No edit, or one that turns the value of member `k` into `v`. */
  predicate SetPart(d: Doc, edits: seq<Edit>, k: Option<nat>, v: Value) {
    match k
    case None => edits == []
    case Some(k) => |edits| == 1 && Realizes(d, k, edits[0], v)
  }

  predicate AddPart(d: Doc, edits: seq<Edit>, news: seq<News>) {
    if news == [] then edits == [] else |edits| == 1 && Adds(d, edits[0], news)
  }

  lemma SetAlone(d: Doc, e1: seq<Edit>, k: Option<nat>, v: Value)
    requires SetPart(d, e1, k, v)
    ensures EditsTo(PrintDoc(d), e1, PrintDoc(SetIf(d, k, v)))
  {
    match k {
      case None => ApplyNone(PrintDoc(d));
      case Some(k) =>
        assert e1 == [e1[0]];
        RealizeOne(d, k, e1[0], v);
        ApplyOne(PrintDoc(d), e1[0], PrintDoc(SetDoc(d, k, v)));
    }
  }

  lemma AddAlone(d: Doc, e2: seq<Edit>, news: seq<News>)
    requires AddPart(d, e2, news) && news != []
    ensures EditsTo(PrintDoc(d), e2, PrintDoc(AddToDoc(d, news)))
  {
    assert e2 == [e2[0]];
    AddOnce(d, e2[0], news);
    ApplyOne(PrintDoc(d), e2[0], PrintDoc(AddToDoc(d, news)));
  }

  lemma OneAndOne(e1: seq<Edit>, e2: seq<Edit>)
    requires |e1| == 1 && |e2| == 1
    ensures e1 + e2 == [e1[0], e2[0]]
  {
  }

  lemma SetAndAdd(d: Doc, e1: seq<Edit>, k: Option<nat>, v: Value, e2: seq<Edit>, news: seq<News>)
    requires SetPart(d, e1, k, v) && AddPart(d, e2, news)
    ensures EditsTo(PrintDoc(d), e1 + e2, PrintDoc(AddIf(SetIf(d, k, v), news)))
  {
    if news == [] {
      assert e1 + e2 == e1;
      SetAlone(d, e1, k, v);
    } else if k.None? {
      assert e1 + e2 == e2;
      AddAlone(d, e2, news);
    } else {
      OneAndOne(e1, e2);
      RealizeAndAdd(d, k.value, e1[0], v, e2[0], news);
    }
  }

  lemma SetBoth(d: Doc, e1: seq<Edit>, j: Option<nat>, v: Value, e2: seq<Edit>, k: Option<nat>, w: Value)
    requires SetPart(d, e1, j, v) && SetPart(d, e2, k, w) && (j.Some? ==> j != k)
    ensures EditsTo(PrintDoc(d), e1 + e2, PrintDoc(SetIf(SetIf(d, j, v), k, w)))
  {
    OneLess(e1, e2, []);
    if j.None? {
      SetAlone(d, e2, k, w);
    } else if k.None? {
      SetAlone(d, e1, j, v);
    } else {
      OneAndOne(e1, e2);
      SetTwo(d, j.value, e1[0], v, k.value, e2[0], w);
    }
  }

  /** Two members, whichever comes first in the body. */
  lemma SetTwo(d: Doc, j: nat, e: Edit, v: Value, k: nat, f: Edit, w: Value)
    requires Realizes(d, j, e, v) && Realizes(d, k, f, w) && j != k
    ensures EditsTo(PrintDoc(d), [e, f], PrintDoc(SetDoc(SetDoc(d, j, v), k, w)))
  {
    if j < k {
      RealizeTwo(d, j, e, v, k, f, w);
    } else {
      RealizeTwo(d, k, f, w, j, e, v);
      SetCommutes(d, j, v, k, w);
    }
  }

  /** The stream member to overwrite, and the tools member to change. */
  function StreamTarget(d: Doc): (k: Option<nat>)
    ensures k.Some? ==> k.value < |d.members|
  {
    if StreamOn(Lookup(d.members, "stream")) then None else LastIndex(d.members, "stream")
  }

  function ToolsTarget(dec: Decoder, d: Doc): (k: Option<nat>)
    ensures k.Some? ==> k.value < |d.members|
  {
    if MissingOf(dec, d) == [] then None else LastIndex(d.members, "tools")
  }

  function ToolsValue(dec: Decoder, d: Doc): Value {
    match LastIndex(d.members, "tools")
    case None => Scalar("")
    case Some(k) => WithTools(d.members[k].val, MissingOf(dec, d))
  }

  lemma GateDocParts(dec: Decoder, d: Doc)
    requires !Open(dec, d)
    ensures GateDoc(dec, d) ==
            AddIf(SetIf(SetIf(d, StreamTarget(d), Scalar("true")), ToolsTarget(dec, d), ToolsValue(dec, d)),
                  GateNews(dec, d))
  {
  }

  lemma StreamPart(d: Doc)
    requires WFDoc(d)
    ensures SetPart(d, StreamEdits(MemberSpan(d, "stream"), StreamOn(Lookup(d.members, "stream"))),
                    StreamTarget(d), Scalar("true"))
  {
    match StreamTarget(d) {
      case None =>
      case Some(k) => RealizesWhole(d, k, Scalar("true"));
    }
  }

  lemma ToolsPart(dec: Decoder, d: Doc)
    requires WFDoc(d)
    ensures var edits := ToolsEdits(PrintDoc(d), MemberSpan(d, "tools"), ToolSpans(d), MissingOf(dec, d));
            edits.Some? && SetPart(d, edits.value, ToolsTarget(dec, d), ToolsValue(dec, d))
  {
    match ToolsTarget(dec, d) {
      case None =>
      case Some(k) => ToolsRealized(d, k, MissingOf(dec, d));
    }
  }

  lemma NewsPart(dec: Decoder, d: Doc)
    requires WFDoc(d)
    ensures DocEnd(d) <= |PrintDoc(d)|
    ensures AddPart(d, InsertEdits(PrintDoc(d), Object(SpansOf(d.members, |d.lead| + 1), DocEnd(d)), GateNews(dec, d)),
                    GateNews(dec, d))
  {
    InsertionPointFound(d);
    if GateNews(dec, d) != [] {
      InsertAdds(d, GateNews(dec, d));
    }
  }

  lemma OneLess(e1: seq<Edit>, e2: seq<Edit>, e3: seq<Edit>)
    ensures e1 == [] ==> e1 + e2 + e3 == e2 + e3
    ensures e2 == [] ==> e1 + e2 + e3 == e1 + e3
    ensures e3 == [] ==> e1 + e2 + e3 == e1 + e2
    ensures (e1 == [] ==> e1 + e2 == e2) && (e2 == [] ==> e1 + e2 == e1)
  {
  }

  /** Three parts at most, and never all three: a member that is added is not also changed. */
  lemma PartsCompose(d: Doc, e1: seq<Edit>, j: Option<nat>, v: Value, e2: seq<Edit>, k: Option<nat>, w: Value,
                     e3: seq<Edit>, news: seq<News>)
    requires SetPart(d, e1, j, v) && SetPart(d, e2, k, w) && AddPart(d, e3, news)
    requires j.Some? && k.Some? ==> j != k && news == []
    ensures EditsTo(PrintDoc(d), e1 + e2 + e3, PrintDoc(AddIf(SetIf(SetIf(d, j, v), k, w), news)))
  {
    OneLess(e1, e2, e3);
    if news == [] {
      SetBoth(d, e1, j, v, e2, k, w);
    } else if j.None? {
      SetAndAdd(d, e2, k, w, e3, news);
    } else {
      SetAndAdd(d, e1, j, v, e3, news);
    }
  }

  /** A member that is changed was there, so it is not added. */
  lemma TargetsApart(dec: Decoder, d: Doc)
    requires StreamTarget(d).Some? && ToolsTarget(dec, d).Some?
    ensures StreamTarget(d) != ToolsTarget(dec, d) && GateNews(dec, d) == []
  {
  }

  lemma PlanIs(dec: Decoder, d: Doc, e1: seq<Edit>, e2: seq<Edit>, e3: seq<Edit>)
    requires WFDoc(d) && PlainKeys(d.members) && !Open(dec, d) && DocEnd(d) <= |PrintDoc(d)|
    requires e1 == StreamEdits(MemberSpan(d, "stream"), StreamOn(Lookup(d.members, "stream")))
    requires ToolsEdits(PrintDoc(d), MemberSpan(d, "tools"), ToolSpans(d), MissingOf(dec, d)) == Some(e2)
    requires e3 == InsertEdits(PrintDoc(d), Object(SpansOf(d.members, |d.lead| + 1), DocEnd(d)), GateNews(dec, d))
    ensures GatePlan(dec, PrintDoc(d)) == Rewrite(e1 + e2 + e3)
  {
    GateRead(dec, d);
    NewsRead(dec, d);
  }

  /** On every body the scanner accepts, the edits are accepted and rewrite the tree as GateDoc does. */
  lemma GateLaw(dec: Decoder, d: Doc)
    requires WFDoc(d) && PlainKeys(d.members)
    ensures Yields(GatePlan(dec, PrintDoc(d)), d, GateDoc(dec, d))
    ensures GatePlan(dec, PrintDoc(d)).Keep? <==> Open(dec, d)
  {
    if Open(dec, d) {
      GateRead(dec, d);
    } else {
      StreamPart(d);
      ToolsPart(dec, d);
      NewsPart(dec, d);
      var e1 := StreamEdits(MemberSpan(d, "stream"), StreamOn(Lookup(d.members, "stream")));
      var e2 := ToolsEdits(PrintDoc(d), MemberSpan(d, "tools"), ToolSpans(d), MissingOf(dec, d)).value;
      var e3 := InsertEdits(PrintDoc(d), Object(SpansOf(d.members, |d.lead| + 1), DocEnd(d)), GateNews(dec, d));
      PlanIs(dec, d, e1, e2, e3);
      GateDocParts(dec, d);
      if StreamTarget(d).Some? && ToolsTarget(dec, d).Some? {
        TargetsApart(dec, d);
      }
      PartsCompose(d, e1, StreamTarget(d), Scalar("true"), e2, ToolsTarget(dec, d), ToolsValue(dec, d),
                   e3, GateNews(dec, d));
    }
  }

  // ----- the gated tree -----

  /** The one fact about the string decoder that matters: it reads the gate names as they are. */
  predicate ReadsNames(dec: Decoder) {
    dec(Quote("bash")) == Some("bash") && dec(Quote("read")) == Some("read")
  }

  lemma ObjectOne(k: string, v: Value)
    requires StringBody(k) && WF(v)
    ensures WF(Obj("", [Field(k, v)]))
  {
    EntriesWF([Field(k, v)]);
  }

  lemma ObjectTwo(k: string, v: Value, l: string, w: Value)
    requires StringBody(k) && WF(v) && StringBody(l) && WF(w)
    ensures WF(Obj("", [Field(k, v), Field(l, w)]))
  {
    EntriesWF([Field(k, v), Field(l, w)]);
  }

  lemma ObjectThree(k: string, v: Value, l: string, w: Value, m: string, x: Value)
    requires StringBody(k) && WF(v) && StringBody(l) && WF(w) && StringBody(m) && WF(x)
    ensures WF(Obj("", [Field(k, v), Field(l, w), Field(m, x)]))
  {
    EntriesWF([Field(k, v), Field(l, w), Field(m, x)]);
  }

  // One literal a lemma: together they are slow to unfold.
  lemma PathWord() ensures StringBody("path") { PlainString("path"); }
  lemma PropertiesWord() ensures StringBody("properties") { PlainString("properties"); }
  lemma DescriptionWord() ensures StringBody("description") { PlainString("description"); }
  lemma ParametersWord() ensures StringBody("parameters") { PlainString("parameters"); }
  lemma PurposeWord() ensures StringBody("opencode gate tool") { PlainString("opencode gate tool"); }
  lemma StringWord() ensures StringBody("string") { PlainString("string"); }
  lemma BashWord() ensures StringBody("bash") { PlainString("bash"); }
  lemma ReadWord() ensures StringBody("read") { PlainString("read"); }
  lemma StreamWord() ensures StringBody("stream") { PlainString("stream"); }
  lemma ToolsWord() ensures StringBody("tools") { PlainString("tools"); }
  lemma ObjectWord() ensures StringBody("object") { PlainString("object"); }

  lemma ParametersWF()
    ensures WF(Parameters())
  {
    TypeWord();
    PathWord();
    PropertiesWord();
    StringWord();
    ObjectWord();
    ObjectOne("type", Str("string"));
    ObjectOne("path", Obj("", [Field("type", Str("string"))]));
    ObjectTwo("type", Str("object"), "properties", PathSchema());
  }

  lemma GateFunctionWF(name: string)
    requires StringBody(name)
    ensures WF(GateFunction(name))
  {
    ParametersWF();
    NameWord();
    DescriptionWord();
    ParametersWord();
    PurposeWord();
    ObjectThree("name", Str(name), "description", Str("opencode gate tool"), "parameters", Parameters());
  }

  lemma GateToolWF(name: string)
    requires StringBody(name)
    ensures WF(GateTool(name))
  {
    GateFunctionWF(name);
    FunctionWord();
    TypeWord();
    ObjectTwo("function", GateFunction(name), "type", Str("function"));
  }

  lemma FunctionNamed(dec: Decoder, fn: Value, rest: seq<Entry>, name: string)
    requires fn.Obj? && PlainKeys(fn.members) && Lookup(fn.members, "name") == Some(Str(name))
    requires dec(Quote(name)) == Some(name)
    requires forall m :: m in rest ==> m.key != "function" && '\\' !in m.key
    ensures ToolNameOf(dec, Obj("", [Field("function", fn)] + rest)) == name
  {
    FirstField("function", fn, rest);
  }

  lemma GateFunctionNamed(name: string)
    ensures PlainKeys(GateFunction(name).members) && Lookup(GateFunction(name).members, "name") == Some(Str(name))
  {
    var rest := [Field("description", Str("opencode gate tool")), Field("parameters", Parameters())];
    FirstField("name", Str(name), rest);
    assert GateFunction(name).members == [Field("name", Str(name))] + rest;
  }

  lemma GateToolNamed(dec: Decoder, name: string)
    requires dec(Quote(name)) == Some(name)
    ensures ToolNameOf(dec, GateTool(name)) == name
  {
    GateFunctionNamed(name);
    FunctionNamed(dec, GateFunction(name), [Field("type", Str("function"))], name);
    assert GateTool(name).members == [Field("function", GateFunction(name))] + [Field("type", Str("function"))];
  }

  lemma MissingIs(bash: bool, read: bool)
    ensures !bash ==> Missing(bash, read) != [] && Missing(bash, read)[0] == GateTool("bash")
    ensures !read ==> Missing(bash, read) != [] && Missing(bash, read)[|Missing(bash, read)| - 1] == GateTool("read")
    ensures Missing(bash, read) == [] <==> bash && read
  {
  }

  lemma NamedAt(dec: Decoder, v: Value, k: nat, name: string)
    requires v.Arr? && k < |v.elems| && ToolNameOf(dec, v.elems[k].val) == name
    ensures HasToolOf(dec, Some(v), name)
  {
  }

  /** The elements that were there stay, in their places. */
  lemma ElementStays(v: Value, add: seq<Value>, k: nat)
    requires v.Arr? && k < |v.elems|
    ensures var w := WithTools(v, add);
            w.Arr? && k < |w.elems| && w.elems[k].pre == v.elems[k].pre && w.elems[k].val == v.elems[k].val
  {
  }

  lemma StillNamed(dec: Decoder, v: Value, add: seq<Value>, name: string)
    requires HasToolOf(dec, Some(v), name)
    ensures HasToolOf(dec, Some(WithTools(v, add)), name)
  {
    var k :| 0 <= k < |v.elems| && ToolNameOf(dec, v.elems[k].val) == name;
    ElementStays(v, add, k);
    NamedAt(dec, WithTools(v, add), k, name);
  }

  lemma NowNamed(dec: Decoder, v: Value, add: seq<Value>, j: nat, name: string)
    requires j < |add| && ToolNameOf(dec, add[j]) == name
    ensures HasToolOf(dec, Some(WithTools(v, add)), name)
  {
    NamedAt(dec, WithTools(v, add), if v.Arr? then |v.elems| + j else j, name);
  }

  /** With the missing tools added, both names are there. */
  lemma BothNamed(dec: Decoder, v: Value)
    requires ReadsNames(dec)
    ensures var bash, read := HasToolOf(dec, Some(v), "bash"), HasToolOf(dec, Some(v), "read");
            var w := WithTools(v, Missing(bash, read));
            HasToolOf(dec, Some(w), "bash") && HasToolOf(dec, Some(w), "read")
  {
    var bash, read := HasToolOf(dec, Some(v), "bash"), HasToolOf(dec, Some(v), "read");
    var add := Missing(bash, read);
    MissingIs(bash, read);
    GateToolNamed(dec, "bash");
    GateToolNamed(dec, "read");
    if bash { StillNamed(dec, v, add, "bash"); } else { NowNamed(dec, v, add, 0, "bash"); }
    if read { StillNamed(dec, v, add, "read"); } else { NowNamed(dec, v, add, |add| - 1, "read"); }
  }

  predicate SameKey(m: Entry, n: Entry) { m.pre == n.pre && m.key == n.key && m.mid == n.mid && m.gap == n.gap }

  function SetAt(i: nat, k: Option<nat>, w: Value, was: Value): Value { if k == Some(i) then w else was }

  /** `f` is `d` with `v` at `j`, then `w` at `k`, and `news` added. */
  predicate Shape(d: Doc, f: Doc, j: Option<nat>, v: Value, k: Option<nat>, w: Value, news: seq<News>) {
    && f.lead == d.lead && f.trail == d.trail && |f.members| == |d.members| + |news|
    && (forall i :: 0 <= i < |d.members| ==>
          && SameKey(f.members[i], d.members[i])
          && f.members[i].val == SetAt(i, k, w, SetAt(i, j, v, d.members[i].val))
          && (i < |d.members| - 1 ==> f.members[i].post == d.members[i].post))
    && (forall i :: 0 <= i < |news| ==>
          f.members[|d.members| + i].key == news[i].key && f.members[|d.members| + i].val == news[i].val)
  }

  lemma SetIfShape(d: Doc, k: Option<nat>, w: Value)
    requires k.Some? ==> k.value < |d.members|
    ensures var f := SetIf(d, k, w);
            && f.lead == d.lead && f.trail == d.trail && f.gap == d.gap && |f.members| == |d.members|
            && (forall i :: 0 <= i < |d.members| ==>
                  f.members[i] == d.members[i].(val := SetAt(i, k, w, d.members[i].val)))
  {
  }

  lemma AddIfShape(d: Doc, news: seq<News>)
    ensures Shape(d, AddIf(d, news), None, Scalar(""), None, Scalar(""), news)
  {
  }

  lemma ShapeOf(d: Doc, j: Option<nat>, v: Value, k: Option<nat>, w: Value, news: seq<News>)
    requires (j.Some? ==> j.value < |d.members|) && (k.Some? ==> k.value < |d.members|)
    ensures Shape(d, AddIf(SetIf(SetIf(d, j, v), k, w), news), j, v, k, w, news)
  {
    var d1 := SetIf(d, j, v);
    var d2 := SetIf(d1, k, w);
    SetIfShape(d, j, v);
    SetIfShape(d1, k, w);
    AddIfShape(d2, news);
    ShapeCompose(d, d1, d2, AddIf(d2, news), j, v, k, w, news);
  }

  lemma ShapeCompose(d: Doc, d1: Doc, d2: Doc, f: Doc, j: Option<nat>, v: Value, k: Option<nat>, w: Value,
                     news: seq<News>)
    requires |d1.members| == |d.members| && |d2.members| == |d.members|
    requires d.lead == d1.lead == d2.lead && d.trail == d1.trail == d2.trail
    requires forall i :: 0 <= i < |d.members| ==>
               d1.members[i] == d.members[i].(val := SetAt(i, j, v, d.members[i].val))
    requires forall i :: 0 <= i < |d.members| ==>
               d2.members[i] == d1.members[i].(val := SetAt(i, k, w, d1.members[i].val))
    requires Shape(d2, f, None, Scalar(""), None, Scalar(""), news)
    ensures Shape(d, f, j, v, k, w, news)
  {
    forall i | 0 <= i < |d.members|
      ensures SameKey(f.members[i], d.members[i])
      ensures f.members[i].val == SetAt(i, k, w, SetAt(i, j, v, d.members[i].val))
      ensures i < |d.members| - 1 ==> f.members[i].post == d.members[i].post
    {
      assert SameKey(f.members[i], d2.members[i]);
    }
  }

  lemma GateShape(dec: Decoder, d: Doc)
    requires !Open(dec, d)
    ensures Shape(d, GateDoc(dec, d), StreamTarget(d), Scalar("true"), ToolsTarget(dec, d), ToolsValue(dec, d),
                  GateNews(dec, d))
  {
    GateDocParts(dec, d);
    ShapeOf(d, StreamTarget(d), Scalar("true"), ToolsTarget(dec, d), ToolsValue(dec, d), GateNews(dec, d));
  }

  /** The whitespace behind the last member stays there, or moves behind the members that were added. */
  predicate Spaced(d: Doc, f: Doc)
    requires |d.members| <= |f.members|
  {
    var n := |d.members|;
    if |f.members| == n then f.gap == d.gap && (n > 0 ==> f.members[n - 1].post == d.members[n - 1].post)
    else
      && (n > 0 ==> f.members[n - 1].post == "")
      && f.members[|f.members| - 1].post == LastPost(d.gap, d.members)
      && (forall i :: n <= i < |f.members| ==>
            && f.members[i].pre == "" && f.members[i].mid == "" && f.members[i].gap == ""
            && (i < |f.members| - 1 ==> f.members[i].post == ""))
  }

  lemma AddSpaced(d: Doc, news: seq<News>)
    requires news != []
    ensures |AddToDoc(d, news).members| == |d.members| + |news| && Spaced(d, AddToDoc(d, news))
  {
    var kept := if d.members == [] then [] else WithPost(d.members, "");
    var added := Fresh(news, LastPost(d.gap, d.members));
    AppendSpaced(kept, added, AddToDoc(d, news).members);
  }

  lemma AppendSpaced(kept: seq<Entry>, added: seq<Entry>, all: seq<Entry>)
    requires all == kept + added && added != []
    ensures |all| == |kept| + |added| && all[|all| - 1] == added[|added| - 1]
    ensures kept != [] ==> all[|kept| - 1] == kept[|kept| - 1]
    ensures forall i :: |kept| <= i < |all| ==> all[i] == added[i - |kept|]
  {
  }

  lemma SetSpaced(d: Doc, k: Option<nat>, w: Value, f: Doc)
    requires k.Some? ==> k.value < |d.members|
    requires |f.members| >= |d.members| && Spaced(SetIf(d, k, w), f)
    ensures Spaced(d, f)
  {
    SetIfShape(d, k, w);
  }

  lemma GateSpaced(dec: Decoder, d: Doc)
    requires !Open(dec, d)
    ensures |GateDoc(dec, d).members| >= |d.members| && Spaced(d, GateDoc(dec, d))
  {
    GateDocParts(dec, d);
    var d1 := SetIf(d, StreamTarget(d), Scalar("true"));
    var d2 := SetIf(d1, ToolsTarget(dec, d), ToolsValue(dec, d));
    SetIfShape(d, StreamTarget(d), Scalar("true"));
    SetIfShape(d1, ToolsTarget(dec, d), ToolsValue(dec, d));
    if GateNews(dec, d) != [] {
      AddSpaced(d2, GateNews(dec, d));
    }
    SetSpaced(d1, ToolsTarget(dec, d), ToolsValue(dec, d), GateDoc(dec, d));
    SetSpaced(d, StreamTarget(d), Scalar("true"), GateDoc(dec, d));
  }

  /** What the rewrite leaves alone: everything but the values of the kept stream and tools members. */
  predicate Untouched(d: Doc, f: Doc) {
    && f.lead == d.lead && f.trail == d.trail && |d.members| <= |f.members|
    && (forall i :: 0 <= i < |d.members| ==>
          && SameKey(f.members[i], d.members[i])
          && (f.members[i].val == d.members[i].val ||
              LastIndex(d.members, "stream") == Some(i) || LastIndex(d.members, "tools") == Some(i))
          && (i < |d.members| - 1 ==> f.members[i].post == d.members[i].post))
    && (forall i :: |d.members| <= i < |f.members| ==> IsNew(d, f.members[i].key))
    && Spaced(d, f)
  }

  predicate IsNew(d: Doc, key: string) {
    (key == "stream" || key == "tools") && LastIndex(d.members, key).None?
  }

  lemma ShapeUntouched(d: Doc, f: Doc, j: Option<nat>, v: Value, k: Option<nat>, w: Value, news: seq<News>)
    requires Shape(d, f, j, v, k, w, news) && Spaced(d, f)
    requires j.None? || j == LastIndex(d.members, "stream")
    requires k.None? || k == LastIndex(d.members, "tools")
    requires forall n :: 0 <= n < |news| ==> IsNew(d, news[n].key)
    ensures Untouched(d, f)
  {
    forall i | |d.members| <= i < |f.members|
      ensures IsNew(d, f.members[i].key)
    {
      var n := i - |d.members|;
      assert f.members[|d.members| + n].key == news[n].key;
    }
  }

  lemma NewsAreNew(dec: Decoder, d: Doc)
    ensures forall n :: 0 <= n < |GateNews(dec, d)| ==> IsNew(d, GateNews(dec, d)[n].key)
  {
  }

  lemma GateUntouched(dec: Decoder, d: Doc)
    ensures Untouched(d, GateDoc(dec, d))
  {
    if !Open(dec, d) {
      var f := GateDoc(dec, d);
      GateShape(dec, d);
      GateSpaced(dec, d);
      NewsAreNew(dec, d);
      ShapeUntouched(d, f, StreamTarget(d), Scalar("true"), ToolsTarget(dec, d), ToolsValue(dec, d), GateNews(dec, d));
    }
  }

  /** A member that was there is found in the same place. */
  lemma ShapeKeeps(d: Doc, f: Doc, j: Option<nat>, v: Value, k: Option<nat>, w: Value, news: seq<News>, at: nat,
                   key: string)
    requires Shape(d, f, j, v, k, w, news) && LastIndex(d.members, key) == Some(at)
    requires forall n :: 0 <= n < |news| ==> news[n].key != key
    ensures Lookup(f.members, key) == Some(SetAt(at, k, w, SetAt(at, j, v, d.members[at].val)))
  {
    forall i | at < i < |f.members|
      ensures f.members[i].key != key
    {
      if i >= |d.members| {
        assert f.members[|d.members| + (i - |d.members|)].key == news[i - |d.members|].key;
      } else {
        assert SameKey(f.members[i], d.members[i]);
      }
    }
    assert SameKey(f.members[at], d.members[at]);
    LastIndexIs(f.members, key, at);
  }

  /** A member that was added is found. */
  lemma ShapeAdds(d: Doc, f: Doc, j: Option<nat>, v: Value, k: Option<nat>, w: Value, news: seq<News>, n: nat)
    requires Shape(d, f, j, v, k, w, news) && n < |news|
    requires forall i :: n < i < |news| ==> news[i].key != news[n].key
    ensures Lookup(f.members, news[n].key) == Some(news[n].val)
  {
    forall i | |d.members| + n < i < |f.members|
      ensures f.members[i].key != news[n].key
    {
      assert f.members[|d.members| + (i - |d.members|)].key == news[i - |d.members|].key;
    }
    LastIndexIs(f.members, news[n].key, |d.members| + n);
  }

  /** The stream value as it is afterwards. */
  function StreamAfter(d: Doc): Value {
    match Lookup(d.members, "stream")
    case Some(v) => if StreamOn(Some(v)) then v else Scalar("true")
    case None => Scalar("true")
  }

  /** A stream member that reads `true` is kept, any other value becomes the scalar `true`. */
  predicate StreamTrue(d: Doc, f: Doc) {
    match Lookup(d.members, "stream")
    case None => Lookup(f.members, "stream") == Some(Scalar("true"))
    case Some(v) => Lookup(f.members, "stream") == Some(if TrimSpace(Print(v)) == "true" then v else Scalar("true"))
  }

  lemma StreamFound(dec: Decoder, d: Doc, f: Doc)
    requires Shape(d, f, StreamTarget(d), Scalar("true"), ToolsTarget(dec, d), ToolsValue(dec, d), GateNews(dec, d))
    ensures Lookup(f.members, "stream") == Some(StreamAfter(d))
  {
    var news := GateNews(dec, d);
    var j, k := StreamTarget(d), ToolsTarget(dec, d);
    match LastIndex(d.members, "stream") {
      case None => ShapeAdds(d, f, j, Scalar("true"), k, ToolsValue(dec, d), news, 0);
      case Some(at) => ShapeKeeps(d, f, j, Scalar("true"), k, ToolsValue(dec, d), news, at, "stream");
    }
  }

  lemma StreamIsOn(d: Doc)
    ensures StreamOn(Some(StreamAfter(d)))
  {
    assert TrimSpace("true") == "true";
  }

  /** The tools as they are afterwards. */
  function ToolsAfter(dec: Decoder, d: Doc): Value {
    match Lookup(d.members, "tools")
    case Some(v) => WithTools(v, MissingOf(dec, d))
    case None => Arr("", FreshElems(MissingOf(dec, d), ""))
  }

  lemma ToolsFound(dec: Decoder, d: Doc, f: Doc)
    requires Shape(d, f, StreamTarget(d), Scalar("true"), ToolsTarget(dec, d), ToolsValue(dec, d), GateNews(dec, d))
    ensures Lookup(f.members, "tools") == Some(ToolsAfter(dec, d))
  {
    var news := GateNews(dec, d);
    var j, k := StreamTarget(d), ToolsTarget(dec, d);
    match LastIndex(d.members, "tools") {
      case None =>
        MissingIs(false, false);
        ShapeAdds(d, f, j, Scalar("true"), k, ToolsValue(dec, d), news, |news| - 1);
      case Some(at) => ShapeKeeps(d, f, j, Scalar("true"), k, ToolsValue(dec, d), news, at, "tools");
    }
  }

  lemma ToolsNamed(dec: Decoder, d: Doc)
    requires ReadsNames(dec)
    ensures HasToolOf(dec, Some(ToolsAfter(dec, d)), "bash") && HasToolOf(dec, Some(ToolsAfter(dec, d)), "read")
  {
    match Lookup(d.members, "tools") {
      case Some(v) => BothNamed(dec, v);
      case None => BothNamed(dec, Scalar("null"));
    }
  }

  // ----- the tools that are added -----

  /** What the upstream asks of a tool: a function whose parameters have at least one property. */
  predicate Admitted(v: Value, name: string) {
    && Inside(v, ["type"]) == Some(Str("function"))
    && Inside(v, ["function", "name"]) == Some(Str(name))
    && Inside(v, ["function", "parameters", "type"]) == Some(Str("object"))
    && Inside(v, ["function", "parameters", "properties", "path", "type"]) == Some(Str("string"))
    && (match Inside(v, ["function", "parameters", "properties"])
        case Some(w) => w.Obj? && |w.members| >= 1
        case None => false)
  }

  lemma PathRead()
    ensures Inside(PathSchema(), ["path", "type"]) == Some(Str("string"))
  {
    var text := Obj("", [Field("type", Str("string"))]);
    LastIndexIs(text.members, "type", 0);
    OneInside(text, "type", Str("string"));
    LastIndexIs(PathSchema().members, "path", 0);
    TwoInside(PathSchema(), "path", text, "type", Some(Str("string")));
  }

  lemma ParametersRead()
    ensures Inside(Parameters(), ["type"]) == Some(Str("object"))
    ensures Inside(Parameters(), ["properties"]) == Some(PathSchema())
    ensures Inside(Parameters(), ["properties", "path", "type"]) == Some(Str("string"))
  {
    FieldsRead("type", Str("object"), "properties", PathSchema());
    OneInside(Parameters(), "type", Str("object"));
    OneInside(Parameters(), "properties", PathSchema());
    PathRead();
    ThreeInside(Parameters(), "properties", PathSchema(), "path", "type", Some(Str("string")));
  }

  lemma FunctionRead(name: string)
    ensures Lookup(GateFunction(name).members, "name") == Some(Str(name))
    ensures Lookup(GateFunction(name).members, "parameters") == Some(Parameters())
  {
    LastIndexIs(GateFunction(name).members, "name", 0);
    LastIndexIs(GateFunction(name).members, "parameters", 2);
  }

  lemma InsideFunction(name: string)
    ensures Inside(GateFunction(name), ["name"]) == Some(Str(name))
    ensures Inside(GateFunction(name), ["parameters", "type"]) == Some(Str("object"))
    ensures Inside(GateFunction(name), ["parameters", "properties"]) == Some(PathSchema())
    ensures Inside(GateFunction(name), ["parameters", "properties", "path", "type"]) == Some(Str("string"))
  {
    var fn := GateFunction(name);
    FunctionRead(name);
    ParametersRead();
    OneInside(fn, "name", Str(name));
    TwoInside(fn, "parameters", Parameters(), "type", Some(Str("object")));
    TwoInside(fn, "parameters", Parameters(), "properties", Some(PathSchema()));
    var rest := ["properties", "path", "type"];
    InsideStep(fn, "parameters", Parameters(), rest);
    assert ["parameters"] + rest == ["parameters", "properties", "path", "type"];
  }

  lemma GateToolAdmitted(name: string)
    ensures Admitted(GateTool(name), name)
  {
    var tool, fn := GateTool(name), GateFunction(name);
    FieldsRead("function", fn, "type", Str("function"));
    InsideFunction(name);
    OneInside(tool, "type", Str("function"));
    TwoInside(tool, "function", fn, "name", Some(Str(name)));
    ThreeInside(tool, "function", fn, "parameters", "type", Some(Str("object")));
    ThreeInside(tool, "function", fn, "parameters", "properties", Some(PathSchema()));
    var rest := ["parameters", "properties", "path", "type"];
    InsideStep(tool, "function", fn, rest);
    assert ["function"] + rest == ["function", "parameters", "properties", "path", "type"];
  }

  /** The elements a tools member has before the rewrite: none unless it is an array. */
  function ToolsOf(d: Doc): seq<Elem> {
    match Lookup(d.members, "tools")
    case None => []
    case Some(v) => if v.Arr? then v.elems else []
  }

  /** Behind the old elements: a `bash` and a `read` tool, each only if no old element has that name. */
  predicate ToolsAdded(dec: Decoder, d: Doc, f: Doc) {
    GateToolsBehind(Named(dec, ToolsOf(d), "bash"), Named(dec, ToolsOf(d), "read"), ToolsOf(d), ToolsOf(f))
  }

  predicate GateToolsBehind(bash: bool, read: bool, was: seq<Elem>, now: seq<Elem>) {
    && |now| == |was| + (if bash then 0 else 1) + (if read then 0 else 1)
    && (!bash ==> Admitted(now[|was|].val, "bash"))
    && (!read ==> Admitted(now[|now| - 1].val, "read"))
    && (forall k :: 0 <= k < |was| ==> now[k].val == was[k].val)
  }

  /** Some element is an object that names itself so, under function.name or else under name. */
  predicate Named(dec: Decoder, elems: seq<Elem>, name: string) {
    exists k :: 0 <= k < |elems| && NamedSo(dec, elems[k].val, name)
  }

  predicate NamedSo(dec: Decoder, v: Value, name: string) {
    v.Obj? && PlainKeys(v.members) &&
    match NestedName(dec, v)
    case Some(n) => n == name
    case None => StringOf(dec, Inside(v, ["name"])) == Some(name)
  }

  function NestedName(dec: Decoder, v: Value): Option<string> {
    match Inside(v, ["function"])
    case None => None
    case Some(fn) => if fn.Obj? && PlainKeys(fn.members) then StringOf(dec, Inside(fn, ["name"])) else None
  }

  lemma NestedRead(dec: Decoder, v: Value)
    requires v.Obj?
    ensures NestedName(dec, v) == FunctionNameOf(dec, v.members)
  {
    MemberRead(v, "function");
    match Lookup(v.members, "function") {
      case None =>
      case Some(fn) => MemberRead(fn, "name");
    }
  }

  lemma NameRead(dec: Decoder, v: Value, name: string)
    requires name != ""
    ensures ToolNameOf(dec, v) == name <==> NamedSo(dec, v, name)
  {
    if v.Obj? {
      NestedRead(dec, v);
      MemberRead(v, "name");
    }
  }

  lemma NamesAreRead(dec: Decoder, d: Doc, name: string)
    requires name != ""
    ensures HasToolOf(dec, Lookup(d.members, "tools"), name) <==> Named(dec, ToolsOf(d), name)
  {
    forall k | 0 <= k < |ToolsOf(d)|
      ensures ToolNameOf(dec, ToolsOf(d)[k].val) == name <==> NamedSo(dec, ToolsOf(d)[k].val, name)
    {
      NameRead(dec, ToolsOf(d)[k].val, name);
    }
    match Lookup(d.members, "tools") {
      case None =>
      case Some(v) => if v.Arr? { HasNamed(dec, v, ToolsOf(d), name); }
    }
  }

  lemma HasNamed(dec: Decoder, v: Value, elems: seq<Elem>, name: string)
    requires v.Arr? && elems == v.elems
    requires forall k :: 0 <= k < |elems| ==> (ToolNameOf(dec, elems[k].val) == name <==> NamedSo(dec, elems[k].val, name))
    ensures HasToolOf(dec, Some(v), name) <==> Named(dec, elems, name)
  {
  }

  /** `now` is `was` with `add` behind it. */
  predicate Behind(was: seq<Elem>, now: seq<Elem>, add: seq<Value>) {
    && |now| == |was| + |add|
    && (forall k :: 0 <= k < |was| ==> now[k].val == was[k].val)
    && (forall k :: 0 <= k < |add| ==> now[|was| + k].val == add[k])
  }

  lemma MissingBehind(bash: bool, read: bool, was: seq<Elem>, now: seq<Elem>)
    requires Behind(was, now, Missing(bash, read))
    ensures GateToolsBehind(bash, read, was, now)
  {
    var add := Missing(bash, read);
    GateToolAdmitted("bash");
    GateToolAdmitted("read");
    MissingIs(bash, read);
    assert |add| > 0 ==> now[|was| + 0].val == add[0] && now[|was| + (|add| - 1)].val == add[|add| - 1];
  }

  lemma WithToolsBehind(v: Value, add: seq<Value>)
    requires v.Arr?
    ensures WithTools(v, add).Arr? && Behind(v.elems, WithTools(v, add).elems, add)
  {
  }

  lemma FreshBehind(add: seq<Value>)
    ensures Behind([], FreshElems(add, ""), add)
  {
  }

  lemma ToolsAfterBehind(dec: Decoder, d: Doc, f: Doc)
    requires Lookup(f.members, "tools") == Some(ToolsAfter(dec, d))
    ensures Behind(ToolsOf(d), ToolsOf(f), MissingOf(dec, d))
  {
    var add := MissingOf(dec, d);
    FreshBehind(add);
    match Lookup(d.members, "tools") {
      case None =>
      case Some(v) => if v.Arr? { WithToolsBehind(v, add); }
    }
  }

  lemma ToolsAfterAdded(dec: Decoder, d: Doc, f: Doc)
    requires Lookup(f.members, "tools") == Some(ToolsAfter(dec, d))
    ensures ToolsAdded(dec, d, f)
  {
    NamesAreRead(dec, d, "bash");
    NamesAreRead(dec, d, "read");
    ToolsAfterBehind(dec, d, f);
    MissingBehind(Named(dec, ToolsOf(d), "bash"), Named(dec, ToolsOf(d), "read"), ToolsOf(d), ToolsOf(f));
  }

  /**
   The gate is open afterwards: the value of `stream` is `true`, both names are there, and each
   tool added is one the upstream admits.
   */
  lemma GateOpens(dec: Decoder, d: Doc)
    requires ReadsNames(dec)
    ensures Open(dec, GateDoc(dec, d))
    ensures StreamTrue(d, GateDoc(dec, d))
    ensures ToolsAdded(dec, d, GateDoc(dec, d))
    ensures Named(dec, ToolsOf(GateDoc(dec, d)), "bash") && Named(dec, ToolsOf(GateDoc(dec, d)), "read")
  {
    NamesAreRead(dec, GateDoc(dec, d), "bash");
    NamesAreRead(dec, GateDoc(dec, d), "read");
    if Open(dec, d) {
      NamesAreRead(dec, d, "bash");
      NamesAreRead(dec, d, "read");
    } else {
      var f := GateDoc(dec, d);
      GateShape(dec, d);
      StreamFound(dec, d, f);
      StreamIsOn(d);
      ToolsFound(dec, d, f);
      ToolsNamed(dec, d);
      ToolsAfterAdded(dec, d, f);
    }
  }

  // ----- the rewritten body is again a body, and rewriting it again changes nothing -----

  lemma AddedElemsWF(gap: string, es: seq<Elem>, add: seq<Value>)
    requires Blank(gap) && WFElems(es) && forall k :: 0 <= k < |add| ==> WF(add[k])
    ensures WFElems(AddElems(gap, es, add))
  {
    var now := AddElems(gap, es, add);
    if es != [] {
      LastElemWF(es);
    }
    forall k | 0 <= k < |now|
      ensures Blank(now[k].pre) && Blank(now[k].post) && WF(now[k].val)
    {
      if k < |es| {
        ElemWF(es, k);
      }
    }
    ElemsAreWF(now);
  }

  lemma WithToolsWF(v: Value, add: seq<Value>)
    requires WF(v) && forall k :: 0 <= k < |add| ==> WF(add[k])
    ensures WF(WithTools(v, add))
  {
    FreshArrayWF(add);
    if v.Arr? {
      AddedElemsWF(v.gap, v.elems, add);
    }
  }

  lemma MissingWF(bash: bool, read: bool)
    ensures forall k :: 0 <= k < |Missing(bash, read)| ==> WF(Missing(bash, read)[k])
  {
    BashWord();
    ReadWord();
    GateToolWF("bash");
    GateToolWF("read");
  }

  lemma SetIfKeeps(d: Doc, k: Option<nat>, w: Value)
    requires WFDoc(d) && PlainKeys(d.members) && (k.Some? ==> k.value < |d.members| && WF(w))
    ensures WFDoc(SetIf(d, k, w)) && PlainKeys(SetIf(d, k, w).members)
  {
    if k.Some? {
      SetDocKeeps(d, k.value, w);
    }
  }

  lemma AddIfKeeps(d: Doc, news: seq<News>)
    requires WFDoc(d) && PlainKeys(d.members)
    requires forall n :: n in news ==> NewsWF(n)
    ensures WFDoc(AddIf(d, news)) && PlainKeys(AddIf(d, news).members)
  {
    if news != [] {
      AddToDocKeeps(d, news);
    }
  }

  lemma ToolsValueWF(dec: Decoder, d: Doc)
    requires WFDoc(d)
    ensures LastIndex(d.members, "tools").Some? ==> WF(ToolsValue(dec, d))
  {
    match LastIndex(d.members, "tools") {
      case None =>
      case Some(k) =>
        var tools := Lookup(d.members, "tools");
        EntryWF(d.members, k);
        MissingWF(HasToolOf(dec, tools, "bash"), HasToolOf(dec, tools, "read"));
        WithToolsWF(d.members[k].val, MissingOf(dec, d));
    }
  }

  predicate NewsWF(n: News) { WF(n.val) && StringBody(n.key) && '\\' !in n.key }

  lemma TwoNewsWF(a: bool, k: string, v: Value, b: bool, l: string, w: Value)
    requires NewsWF(News(k, v)) && NewsWF(News(l, w))
    ensures forall n :: n in (if a then [News(k, v)] else []) + (if b then [News(l, w)] else []) ==> NewsWF(n)
  {
  }

  lemma ToolsNewsWF(add: seq<Value>)
    requires forall k :: 0 <= k < |add| ==> WF(add[k])
    ensures NewsWF(News("tools", Arr("", FreshElems(add, ""))))
  {
    FreshArrayWF(add);
    ToolsWord();
  }

  lemma StreamNewsWF()
    ensures NewsWF(News("stream", Scalar("true")))
  {
    StreamWord();
  }

  lemma GateNewsWF(dec: Decoder, d: Doc)
    ensures forall n :: n in GateNews(dec, d) ==> NewsWF(n)
  {
    var tools := Lookup(d.members, "tools");
    var add := MissingOf(dec, d);
    MissingWF(HasToolOf(dec, tools, "bash"), HasToolOf(dec, tools, "read"));
    ToolsNewsWF(add);
    StreamNewsWF();
    TwoNewsWF(LastIndex(d.members, "stream").None?, "stream", Scalar("true"),
              add != [] && LastIndex(d.members, "tools").None?, "tools", Arr("", FreshElems(add, "")));
  }

  lemma PartsKeep(d: Doc, j: Option<nat>, v: Value, k: Option<nat>, w: Value, news: seq<News>)
    requires WFDoc(d) && PlainKeys(d.members)
    requires (j.Some? ==> j.value < |d.members| && WF(v)) && (k.Some? ==> k.value < |d.members| && WF(w))
    requires forall n :: n in news ==> NewsWF(n)
    ensures var f := AddIf(SetIf(SetIf(d, j, v), k, w), news); WFDoc(f) && PlainKeys(f.members)
  {
    SetIfKeeps(d, j, v);
    SetIfKeeps(SetIf(d, j, v), k, w);
    AddIfKeeps(SetIf(SetIf(d, j, v), k, w), news);
  }

  lemma GatedKeeps(dec: Decoder, d: Doc, f: Doc)
    requires WFDoc(d) && PlainKeys(d.members)
    requires f == AddIf(SetIf(SetIf(d, StreamTarget(d), Scalar("true")), ToolsTarget(dec, d), ToolsValue(dec, d)),
                        GateNews(dec, d))
    ensures WFDoc(f) && PlainKeys(f.members)
  {
    StreamNewsWF();
    ToolsValueWF(dec, d);
    GateNewsWF(dec, d);
    PartsKeep(d, StreamTarget(d), Scalar("true"), ToolsTarget(dec, d), ToolsValue(dec, d), GateNews(dec, d));
  }

  /** The gated body is again one the scanner accepts. */
  lemma GateKeeps(dec: Decoder, d: Doc)
    requires WFDoc(d) && PlainKeys(d.members)
    ensures WFDoc(GateDoc(dec, d)) && PlainKeys(GateDoc(dec, d).members)
  {
    if !Open(dec, d) {
      GateDocParts(dec, d);
      GatedKeeps(dec, d, GateDoc(dec, d));
    }
  }

  /** A second application keeps the body as it is. */
  lemma GateTwice(dec: Decoder, d: Doc)
    requires WFDoc(d) && PlainKeys(d.members) && ReadsNames(dec)
    ensures GateDoc(dec, GateDoc(dec, d)) == GateDoc(dec, d)
    ensures GatePlan(dec, PrintDoc(GateDoc(dec, d))).Keep?
  {
    GateOpens(dec, d);
    GateKeeps(dec, d);
    GateLaw(dec, GateDoc(dec, d));
  }

  // ----- the method -----

  /** For every printed body the scanner accepts, the bytes that come out are the gated tree's. */
  method OpencodeGateBody(dec: Decoder, body: string) returns (out: string)
    ensures ScanObject(body).None? ==> out == body
    ensures forall d :: WFDoc(d) && PlainKeys(d.members) && PrintDoc(d) == body ==> out == PrintDoc(GateDoc(dec, d))
  {
    var plan := PlanGate(dec, body);
    match plan {
      case Keep => out := body;
      case Rewrite(edits) => out := ApplyJSONEdits(body, edits);
    }
    forall d | WFDoc(d) && PlainKeys(d.members) && PrintDoc(d) == body
      ensures out == PrintDoc(GateDoc(dec, d))
    {
      GateLaw(dec, d);
    }
  }
}
