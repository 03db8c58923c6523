/**
 Session identity (bodySessionID of api.go, opencodeConversationID of config.go)
 and the assistant turn that a failover appends (appendAssistantMessage): which
 conversations keep their identity when the turn is appended.
 */
module Session {
  import opened Text
  import opened JsonScan
  import opened JsonTree
  import opened JsonSplice
  import opened JsonSqueeze
  import opened Rewrite

  // ----- one message -----

  /** What the two identity loops read of a message; Broken stops them. */
  datatype Message = Broken | Message(role: string, content: Option<string>)

  /** jsonLiteralValue of a scanned span */
  function Literal(b: string, span: Span): string {
    if span.start <= span.end <= |b| then TrimSpace(b[span.start..span.end]) else ""
  }

  function Role(dec: Decoder, b: string, spans: seq<Span>): Option<string> {
    match Find(spans, "role")
    case None => Some("")
    case Some(span) => StringValue(dec, b, Some(span))
  }

  function ReadMessage(dec: Decoder, b: string, elem: Span): Message {
    match ObjectAt(b, elem)
    case None => Broken
    case Some(m) =>
      match Role(dec, b, m.spans)
      case None => Broken
      case Some(role) =>
        match Find(m.spans, "content")
        case None => Message(role, None)
        case Some(span) => Message(role, Some(Literal(b, span)))
  }

  function ReadMessages(dec: Decoder, b: string, elems: seq<Span>): (ms: seq<Message>)
    ensures |ms| == |elems|
  {
    seq(|elems|, k requires 0 <= k < |elems| => ReadMessage(dec, b, elems[k]))
  }

  // ----- the anchors -----

  /** The first system and the first user content. */
  datatype Anchors = Anchors(system: Option<string>, user: Option<string>) {
    predicate Any() { system.Some? || user.Some? }

    predicate Both() { system.Some? && user.Some? }

    function Note(role: string, content: string): Anchors {
      if role == "system" && system.None? then this.(system := Some(content))
      else if role == "user" && user.None? then this.(user := Some(content))
      else this
    }

    /** The model, then each anchor behind a zero byte. */
    function Hashed(model: string): string {
      model + (if system.Some? then "\0" + system.value else "") + (if user.Some? then "\0" + user.value else "")
    }
  }

  const NONE := Anchors(None, None)

  /** The loop of bodySessionID: it stops at a broken message, keeping what it has, and once it has both. */
  function SessionAnchors(ms: seq<Message>, seen: Anchors): Anchors {
    if ms == [] || ms[0].Broken? then seen
    else if ms[0].content.None? then SessionAnchors(ms[1..], seen)
    else
      var now := seen.Note(ms[0].role, ms[0].content.value);
      if now.Both() then now else SessionAnchors(ms[1..], now)
  }

  /** The loop of opencodeConversationID: a broken message gives up; missing content is the empty content. */
  function ConversationAnchors(ms: seq<Message>, seen: Anchors): Option<Anchors> {
    if ms == [] then Some(seen)
    else if ms[0].Broken? then None
    else
      var content := if ms[0].content.Some? then ms[0].content.value else "";
      ConversationAnchors(ms[1..], seen.Note(ms[0].role, content))
  }

  // ----- identities; the hash is left out, these are the bytes hashed -----

  datatype Identity = Context(hashed: string) | Body(hashed: string)

  function BodySessionID(dec: Decoder, b: string): Identity {
    match ScanObject(b)
    case None => Body(b)
    case Some(obj) =>
      match StringValue(dec, b, Find(obj.spans, "model"))
      case None => Body(b)
      case Some(model) =>
        if model == "" then Body(b) else
        ObjectBounded(b);
        SpanIdentity(dec, b, model, Find(obj.spans, "messages"))
  }

  /** The identity, once the model and the span of the messages are known. */
  function SpanIdentity(dec: Decoder, b: string, model: string, messages: Option<Span>): Identity
    requires messages.Some? ==> messages.value.start <= messages.value.end <= |b|
  {
    match messages
    case None => Context(model + "\0" + "null\n")
    case Some(span) =>
      var raw := b[span.start..span.end];
      match ArrayElements(b, span)
      case None => Context(model + "\0" + Squeeze(raw, false, false))
      case Some(elems) => SessionIdentity(model, SessionAnchors(ReadMessages(dec, b, elems), NONE), raw)
  }

  function SessionIdentity(model: string, a: Anchors, raw: string): Identity {
    Context(if a.Any() then a.Hashed(model) else model + "\0" + Squeeze(raw, false, false))
  }

  function ConversationID(dec: Decoder, b: string): Option<string> {
    match ScanObject(b)
    case None => None
    case Some(obj) =>
      match StringValue(dec, b, Find(obj.spans, "model"))
      case None => None
      case Some(model) =>
        if model == "" || Find(obj.spans, "messages").None? then None
        else
          match ArrayElements(b, Find(obj.spans, "messages").value)
          case None => None
          case Some(elems) => ConversationIdentity(model, ConversationAnchors(ReadMessages(dec, b, elems), NONE))
  }

  function ConversationIdentity(model: string, a: Option<Anchors>): Option<string> {
    if a.Some? && a.value.Any() then Some(a.value.Hashed(model)) else None
  }

  // ----- later turns -----

  /** Once both anchors are there, no later message changes the session. */
  lemma {:induction false} LaterTurnsShare(ms: seq<Message>, more: seq<Message>, seen: Anchors)
    requires !seen.Both() && SessionAnchors(ms, seen).Both()
    ensures SessionAnchors(ms + more, seen) == SessionAnchors(ms, seen)
  {
    if ms != [] {
      assert (ms + more)[1..] == ms[1..] + more;
      if ms[0].Message? {
        var now := if ms[0].content.None? then seen else seen.Note(ms[0].role, ms[0].content.value);
        if !now.Both() {
          LaterTurnsShare(ms[1..], more, now);
        }
      }
    }
  }

  // ----- the loops -----

  method ScanSession(dec: Decoder, body: string, elems: seq<Span>) returns (a: Anchors)
    ensures a == SessionAnchors(ReadMessages(dec, body, elems), NONE)
  {
    a := NONE;
    ghost var all := ReadMessages(dec, body, elems);
    for i := 0 to |elems|
      invariant SessionAnchors(all[i..], a) == SessionAnchors(all, NONE)
      invariant !a.Both()
    {
      var m := ReadMessage(dec, body, elems[i]);
      assert all[i..][0] == m && all[i..][1..] == all[i + 1..];
      if m.Broken? {
        return;
      }
      if m.content.None? {
        continue;
      }
      a := a.Note(m.role, m.content.value);
      if a.Both() {
        return;
      }
    }
  }

  method ScanConversation(dec: Decoder, body: string, elems: seq<Span>) returns (a: Option<Anchors>)
    ensures a == ConversationAnchors(ReadMessages(dec, body, elems), NONE)
  {
    var seen := NONE;
    ghost var all := ReadMessages(dec, body, elems);
    for i := 0 to |elems|
      invariant ConversationAnchors(all[i..], seen) == ConversationAnchors(all, NONE)
    {
      var m := ReadMessage(dec, body, elems[i]);
      assert all[i..][0] == m && all[i..][1..] == all[i + 1..];
      if m.Broken? {
        return None;
      }
      seen := seen.Note(m.role, if m.content.Some? then m.content.value else "");
    }
    return Some(seen);
  }

  method SessionFingerprint(dec: Decoder, body: string) returns (id: Identity)
    ensures id == BodySessionID(dec, body)
  {
    var obj, ok := ScanJSONObject(body);
    if !ok {
      return Body(body);
    }
    var modelSpan := FindJSONMember(obj, "model");
    var model := StringValue(dec, body, modelSpan);
    if model.None? || model.value == "" {
      return Body(body);
    }
    var messages := FindJSONMember(obj, "messages");
    var anchors := NONE;
    if messages.Some? {
      var elems, isArray := JSONArrayElements(body, messages.value);
      if isArray {
        anchors := ScanSession(dec, body, elems);
      }
    }
    if anchors.Any() {
      return Context(anchors.Hashed(model.value));
    }
    if messages.None? {
      return Context(model.value + "\0" + "null\n");
    }
    ObjectBounded(body);
    var written := HashJSONValue(body[messages.value.start..messages.value.end]);
    return Context(model.value + "\0" + written);
  }

  // ----- identities of a printed body -----

  function RoleOf(dec: Decoder, ms: seq<Entry>): Option<string> {
    match Lookup(ms, "role")
    case None => Some("")
    case Some(v) => StringOf(dec, Some(v))
  }

  function MessageOf(dec: Decoder, v: Value): Message {
    if !v.Obj? || !PlainKeys(v.members) || RoleOf(dec, v.members).None? then Broken
    else
      match Lookup(v.members, "content")
      case None => Message(RoleOf(dec, v.members).value, None)
      case Some(c) => Message(RoleOf(dec, v.members).value, Some(TrimSpace(Print(c))))
  }

  function MessagesOf(dec: Decoder, es: seq<Elem>): (ms: seq<Message>)
    ensures |ms| == |es|
  {
    seq(|es|, k requires 0 <= k < |es| => MessageOf(dec, es[k].val))
  }

  // ----- the text of a value inside a printed body -----

  lemma {:induction false} MemberLies(b: string, ms: seq<Entry>, i: nat, k: nat)
    requires k < |ms| && Lies(b, PrintEntries(ms), i)
    ensures Lies(b, Print(ms[k].val), SpansOf(ms, i)[k].start)
    ensures SpansOf(ms, i)[k].end == SpansOf(ms, i)[k].start + Size(ms[k].val)
  {
    FirstMemberLies(b, ms, i);
    if k > 0 {
      MemberLies(b, ms[1..], i + EntrySize(ms[0]) + 1, k - 1);
    }
  }

  lemma {:induction false} FirstMemberLies(b: string, ms: seq<Entry>, i: nat)
    requires ms != [] && Lies(b, PrintEntries(ms), i)
    ensures Lies(b, Print(ms[0].val), i + KeySize(ms[0]))
    ensures |ms| > 1 ==> Lies(b, PrintEntries(ms[1..]), i + EntrySize(ms[0]) + 1)
  {
    var tail := if |ms| == 1 then "" else "," + PrintEntries(ms[1..]);
    EntryLies(b, ms[0], Print(ms[0].val), tail, i);
    PrintSize(ms[0].val);
    if |ms| > 1 {
      SamePlace(b, tail, i + KeySize(ms[0]) + |Print(ms[0].val)| + |ms[0].post|, i + EntrySize(ms[0]));
      CommaLies(b, PrintEntries(ms[1..]), i + EntrySize(ms[0]));
    }
  }

  lemma {:induction false} ElementLies(b: string, es: seq<Elem>, i: nat, k: nat)
    requires k < |es| && Lies(b, PrintElems(es), i)
    ensures Lies(b, Print(es[k].val), ElemSpans(es, i)[k].start)
    ensures ElemSpans(es, i)[k].end == ElemSpans(es, i)[k].start + Size(es[k].val)
  {
    var tail := if |es| == 1 then "" else "," + PrintElems(es[1..]);
    LiesFour(b, es[0].pre, Print(es[0].val), es[0].post, tail, i);
    PrintSize(es[0].val);
    if k > 0 {
      CommaLies(b, PrintElems(es[1..]), i + ElemSize(es[0]));
      ElementLies(b, es[1..], i + ElemSize(es[0]) + 1, k - 1);
    }
  }

  /** A printed value, where its span says. */
  predicate Printed(b: string, v: Value, span: Span) {
    WF(v) && Lies(b, Print(v), span.start) && span.end == span.start + Size(v) <= |b|
  }

  lemma PrintedHolds(b: string, v: Value, span: Span)
    requires Printed(b, v, span)
    ensures Holds(b, v, span.start)
  {
    PrintHolds(b, v, span.start);
  }

  lemma LiteralPrinted(b: string, v: Value, span: Span)
    requires Printed(b, v, span)
    ensures Literal(b, span) == TrimSpace(Print(v))
  {
    LiesIsAt(b, Print(v), span.start);
    PrintSize(v);
  }

  lemma MemberPrinted(b: string, v: Value, span: Span, k: nat)
    requires Printed(b, v, span) && v.Obj? && k < |v.members|
    ensures Printed(b, v.members[k].val, SpansOf(v.members, span.start + 1)[k])
  {
    var i := span.start + 1;
    BracketsHold(b, '{', PrintEntries(v.members), '}', span.start);
    MemberLies(b, v.members, i, k);
    EntryWF(v.members, k);
    SpanInside(v.members, i, k);
  }

  lemma ElementPrinted(b: string, v: Value, span: Span, k: nat)
    requires Printed(b, v, span) && v.Arr? && k < |v.elems|
    ensures Printed(b, v.elems[k].val, ElemSpans(v.elems, span.start + 1)[k])
  {
    var i := span.start + 1;
    BracketsHold(b, '[', PrintElems(v.elems), ']', span.start);
    ElementLies(b, v.elems, i, k);
    ElemWF(v.elems, k);
    ElementInside(v.elems, i, k);
  }

  lemma DocMemberPrinted(d: Doc, k: nat)
    requires WFDoc(d) && k < |d.members|
    ensures Printed(PrintDoc(d), d.members[k].val, DocSpan(d, k))
  {
    DocSpanIs(d, k);
    EntryWF(d.members, k);
    PrintSize(d.members[k].val);
    TextLies(DocLeft(d, k), Print(d.members[k].val), DocRight(d, k));
  }

  lemma TextLies(l: string, m: string, r: string)
    ensures Lies(l + m + r, m, |l|)
  {
    LiesIsAt(l + m + r, m, |l|);
    assert (l + m + r)[|l|..|l| + |m|] == m;
  }

  // ----- what the loops read in a printed body -----

  lemma RolePrinted(dec: Decoder, b: string, v: Value, span: Span)
    requires Printed(b, v, span) && v.Obj?
    ensures Role(dec, b, SpansOf(v.members, span.start + 1)) == RoleOf(dec, v.members)
  {
    FindPrinted(v.members, span.start + 1, "role");
    match LastIndex(v.members, "role") {
      case None =>
      case Some(k) =>
        MemberPrinted(b, v, span, k);
        PrintedHolds(b, v.members[k].val, SpansOf(v.members, span.start + 1)[k]);
        StringValuePrinted(dec, b, v.members[k].val, SpansOf(v.members, span.start + 1)[k]);
    }
  }

  lemma ContentPrinted(b: string, v: Value, span: Span)
    requires Printed(b, v, span) && v.Obj?
    ensures var c := Find(SpansOf(v.members, span.start + 1), "content");
            && (c.Some? <==> Lookup(v.members, "content").Some?)
            && (c.Some? ==> Literal(b, c.value) == TrimSpace(Print(Lookup(v.members, "content").value)))
  {
    FindPrinted(v.members, span.start + 1, "content");
    match LastIndex(v.members, "content") {
      case None =>
      case Some(k) =>
        MemberPrinted(b, v, span, k);
        LiteralPrinted(b, v.members[k].val, SpansOf(v.members, span.start + 1)[k]);
    }
  }

  lemma MessageRead(dec: Decoder, b: string, v: Value, span: Span)
    requires Printed(b, v, span)
    ensures ReadMessage(dec, b, span) == MessageOf(dec, v)
  {
    PrintedHolds(b, v, span);
    ObjectAtPrinted(b, v, span);
    if v.Obj? {
      RolePrinted(dec, b, v, span);
      ContentPrinted(b, v, span);
    }
  }

  lemma MessagesRead(dec: Decoder, b: string, v: Value, span: Span)
    requires Printed(b, v, span) && v.Arr?
    ensures ReadMessages(dec, b, ElemSpans(v.elems, span.start + 1)) == MessagesOf(dec, v.elems)
  {
    forall k | 0 <= k < |v.elems|
      ensures ReadMessage(dec, b, ElemSpans(v.elems, span.start + 1)[k]) == MessageOf(dec, v.elems[k].val)
    {
      ElementPrinted(b, v, span, k);
      MessageRead(dec, b, v.elems[k].val, ElemSpans(v.elems, span.start + 1)[k]);
    }
  }

  // ----- the identities of a tree -----

  /** The model, when the body names one. */
  function ModelOf(dec: Decoder, d: Doc): Option<string> {
    match StringOf(dec, Lookup(d.members, "model"))
    case None => None
    case Some(model) => if model == "" then None else Some(model)
  }

  function AnchorsOf(dec: Decoder, messages: Option<Value>): Anchors {
    if messages.Some? && messages.value.Arr? then SessionAnchors(MessagesOf(dec, messages.value.elems), NONE) else NONE
  }

  /** What stands for the messages when there is no anchor: their text without whitespace. */
  function MessagesText(messages: Option<Value>): string {
    match messages case None => "null\n" case Some(v) => Print(Strip(v))
  }

  function SessionOf(dec: Decoder, d: Doc): Identity {
    match ModelOf(dec, d)
    case None => Body(PrintDoc(d))
    case Some(model) =>
      TreeIdentity(dec, model, Lookup(d.members, "messages"))
  }

  function TreeIdentity(dec: Decoder, model: string, messages: Option<Value>): Identity {
    var a := AnchorsOf(dec, messages);
    Context(if a.Any() then a.Hashed(model) else model + "\0" + MessagesText(messages))
  }

  function ConversationOf(dec: Decoder, d: Doc): Option<string> {
    match ModelOf(dec, d)
    case None => None
    case Some(model) =>
      match Lookup(d.members, "messages")
      case None => None
      case Some(v) =>
        if v.Arr? then ConversationIdentity(model, ConversationAnchors(MessagesOf(dec, v.elems), NONE)) else None
  }

  lemma ModelRead(dec: Decoder, d: Doc)
    requires WFDoc(d) && PlainKeys(d.members)
    ensures ScanObject(PrintDoc(d)) == Some(Object(SpansOf(d.members, |d.lead| + 1), DocEnd(d)))
    ensures StringValue(dec, PrintDoc(d), Find(SpansOf(d.members, |d.lead| + 1), "model")) ==
            StringOf(dec, Lookup(d.members, "model"))
  {
    DocLookup(d, "model");
    match LastIndex(d.members, "model") {
      case None =>
      case Some(k) =>
        DocMemberPrinted(d, k);
        PrintedHolds(PrintDoc(d), d.members[k].val, DocSpan(d, k));
        StringValuePrinted(dec, PrintDoc(d), d.members[k].val, DocSpan(d, k));
    }
  }

  lemma ValueText(b: string, v: Value, span: Span)
    requires Printed(b, v, span)
    ensures b[span.start..span.end] == Print(v)
  {
    LiesIsAt(b, Print(v), span.start);
    PrintSize(v);
  }

  /** What the identities read of the messages member of a printed body. */
  lemma MessagesMemberRead(dec: Decoder, d: Doc, k: nat)
    requires WFDoc(d) && k < |d.members|
    ensures var b, span, v := PrintDoc(d), DocSpan(d, k), d.members[k].val;
            && WF(v) && span.start <= span.end <= |b| && b[span.start..span.end] == Print(v)
            && (ArrayElements(b, span).Some? <==> v.Arr?)
            && (v.Arr? ==> ReadMessages(dec, b, ArrayElements(b, span).value) == MessagesOf(dec, v.elems))
  {
    var b, span, v := PrintDoc(d), DocSpan(d, k), d.members[k].val;
    DocMemberPrinted(d, k);
    ValueText(b, v, span);
    PrintedHolds(b, v, span);
    ScanPrintedArray(b, v, span);
    if v.Arr? {
      MessagesRead(dec, b, v, span);
    }
  }

  lemma SessionRead(dec: Decoder, d: Doc)
    requires WFDoc(d) && PlainKeys(d.members)
    ensures BodySessionID(dec, PrintDoc(d)) == SessionOf(dec, d)
  {
    ModelRead(dec, d);
    DocLookup(d, "messages");
    if ModelOf(dec, d).Some? {
      match LastIndex(d.members, "messages") {
        case None =>
        case Some(k) =>
          MessagesMemberRead(dec, d, k);
          SpanIdentityRead(dec, PrintDoc(d), ModelOf(dec, d).value, DocSpan(d, k), d.members[k].val);
      }
    }
  }

  lemma SpanIdentityRead(dec: Decoder, b: string, model: string, span: Span, v: Value)
    requires WF(v) && span.start <= span.end <= |b| && b[span.start..span.end] == Print(v)
    requires ArrayElements(b, span).Some? <==> v.Arr?
    requires v.Arr? ==> ReadMessages(dec, b, ArrayElements(b, span).value) == MessagesOf(dec, v.elems)
    ensures SpanIdentity(dec, b, model, Some(span)) == TreeIdentity(dec, model, Some(v))
  {
    HashedText(v);
  }

  lemma ConversationRead(dec: Decoder, d: Doc)
    requires WFDoc(d) && PlainKeys(d.members)
    ensures ConversationID(dec, PrintDoc(d)) == ConversationOf(dec, d)
  {
    ModelRead(dec, d);
    DocLookup(d, "messages");
    match LastIndex(d.members, "messages") {
      case None =>
      case Some(k) => MessagesMemberRead(dec, d, k);
    }
  }

  // ----- appending the assistant turn -----

  /** A tool call replayed with the turn; the fields are texts of the stream. */
  datatype ToolCall = ToolCall(id: string, kind: string, name: string, arguments: string)

  /** json.Marshal of a string, without its quotes. */
  type Encoder = string -> string

  ghost predicate Encodes(enc: Encoder) { forall s :: StringBody(enc(s)) }

  function CallValue(enc: Encoder, call: ToolCall): Value {
    Obj("", [Field("function", Obj("", [Field("arguments", Str(enc(call.arguments))), Field("name", Str(enc(call.name)))]))] +
            (if call.id == "" then [] else [Field("id", Str(enc(call.id)))]) +
            (if call.kind == "" then [] else [Field("type", Str(enc(call.kind)))]))
  }

  /** Calls whose name never arrived are dropped. */
  function Replayed(enc: Encoder, calls: seq<ToolCall>): seq<Value> {
    if calls == [] then []
    else (if calls[0].name == "" then [] else [CallValue(enc, calls[0])]) + Replayed(enc, calls[1..])
  }

  /** json.Marshal of the turn: the keys in order. */
  function AssistantTurn(enc: Encoder, content: string, calls: seq<ToolCall>, reasoning: string): Value {
    var replayed := Replayed(enc, calls);
    Obj("", [Field("content", Str(enc(content)))] +
            (if reasoning == "" then [] else [Field("reasoning_content", Str(enc(reasoning)))]) +
            [Field("role", Str("assistant"))] +
            (if replayed == [] then [] else [Field("tool_calls", Arr("", FreshElems(replayed, "")))]))
  }

  function Singleton(msg: string): string { "[" + msg + "]" }

  /** appendAssistantMessage, for the turn already encoded. */
  function AppendAssistant(b: string, msg: string): string {
    match ScanObject(b)
    case None => b
    case Some(obj) =>
      ObjectBounded(b);
      match Find(obj.spans, "messages")
      case None => InsertJSONMember(b, obj.end, "messages", Singleton(msg))
      case Some(span) => AppendToValue(b, span, msg)
  }

  function AppendToValue(b: string, span: Span, msg: string): string
    requires Solid(b, span)
  {
    var existing := b[span.start..span.end];
    if existing[0] == 'n' then ReplaceJSONValue(b, span, Singleton(msg))
    else if existing[0] != '[' then b
    else
      var inside := existing[1..|existing| - 1];
      var closing := span.end - 1;
      Splice(b, closing, closing, (if SkipSpace(inside, 0) == |inside| then "" else ",") + msg)
  }

  /** A null (or any scalar that starts like it): it carries no messages. */
  predicate NullLike(v: Value) { v.Scalar? && v.text != "" && v.text[0] == 'n' }

  function Single(msg: Value): Value { Arr("", [Elem("", msg, "")]) }

  /** On the tree: one more element; no messages become the array of one. */
  function Appended(messages: Option<Value>, msg: Value): Value {
    match messages
    case None => Single(msg)
    case Some(v) =>
      if v.Arr? then Arr(v.gap, AppendElem(v.gap, v.elems, msg))
      else if NullLike(v) then Single(msg)
      else v
  }

  function AppendDoc(d: Doc, msg: Value): Doc {
    SetMember(d, "messages", Appended(Lookup(d.members, "messages"), msg))
  }

  lemma EmptyInside(gap: string, es: seq<Elem>)
    requires Blank(gap) && WFElems(es)
    ensures var inside := if es == [] then gap else PrintElems(es);
            SkipSpace(inside, 0) == |inside| <==> es == []
  {
    var inside := if es == [] then gap else PrintElems(es);
    LiesWhole(inside);
    if es == [] {
      SkipBlank(inside, gap, 0);
    } else {
      PrintElemsHold(inside, es, 0);
      ValueStart(inside, es[0].val, |es[0].pre|);
      SkipTo(inside, es[0].pre, 0);
    }
  }

  lemma InsideBrackets(inside: string)
    ensures var text := "[" + inside + "]"; |text| == |inside| + 2 && text[1..|text| - 1] == inside && text[0] == '['
  {
  }

  lemma ArrayAppendText(gap: string, es: seq<Elem>, msg: Value)
    requires Blank(gap) && WFElems(es)
    ensures var text := Print(Arr(gap, es));
            && |text| >= 2 && text[0] == '['
            && ElemSeparator(es) == (var inside := text[1..|text| - 1];
                                     if SkipSpace(inside, 0) == |inside| then "" else ",")
            && Print(Arr(gap, AppendElem(gap, es, msg))) ==
               Splice(text, |text| - 1, |text| - 1, ElemSeparator(es) + Print(msg))
  {
    EmptyInside(gap, es);
    InsideBrackets(if es == [] then gap else PrintElems(es));
    AppendElemLaw(gap, es, msg);
  }

  lemma SingleText(msg: Value)
    ensures Print(Single(msg)) == Singleton(Print(msg))
  {
    OneElem(msg);
  }

  lemma FirstChar(v: Value)
    requires WF(v)
    ensures Print(v) != ""
    ensures Print(v)[0] == 'n' <==> NullLike(v)
    ensures Print(v)[0] == '[' <==> v.Arr?
  {
    var text := Print(v);
    LiesWhole(text);
    PrintHolds(text, v, 0);
    ValueStart(text, v, 0);
  }

  lemma DocMemberSolid(d: Doc, k: nat)
    requires WFDoc(d) && k < |d.members|
    ensures var b, span, text := PrintDoc(d), DocSpan(d, k), Print(d.members[k].val);
            && span.end == span.start + |text| <= |b| && b[span.start..span.end] == text && text != ""
            && b[span.start] == text[0]
  {
    DocMemberPrinted(d, k);
    ValueText(PrintDoc(d), d.members[k].val, DocSpan(d, k));
    PrintSize(d.members[k].val);
    FirstChar(d.members[k].val);
    assert PrintDoc(d)[DocSpan(d, k).start..DocSpan(d, k).end][0] == PrintDoc(d)[DocSpan(d, k).start];
  }

  /** The branch of the source for an array, given the text of the value. */
  lemma AppendToText(b: string, span: Span, text: string, sep: string, msg: string)
    requires Solid(b, span) && b[span.start..span.end] == text && |text| >= 2 && text[0] == '['
    requires sep == var inside := text[1..|text| - 1]; if SkipSpace(inside, 0) == |inside| then "" else ","
    ensures span.start + (|text| - 1) <= |b|
    ensures AppendToValue(b, span, msg) == Splice(b, span.start + (|text| - 1), span.start + (|text| - 1), sep + msg)
  {
  }

  lemma ArrayBranch(d: Doc, k: nat, gap: string, es: seq<Elem>, msg: Value, n: nat)
    requires WFDoc(d) && k < |d.members| && d.members[k].val == Arr(gap, es) && Solid(PrintDoc(d), DocSpan(d, k))
    requires n == |Print(Arr(gap, es))| - 1
    ensures var at := DocSpan(d, k).start + n;
            && at <= |PrintDoc(d)|
            && AppendToValue(PrintDoc(d), DocSpan(d, k), Print(msg)) ==
               Splice(PrintDoc(d), at, at, ElemSeparator(es) + Print(msg))
  {
    var text := Print(Arr(gap, es));
    assert Blank(gap) && WFElems(es) by { EntryWF(d.members, k); }
    assert |text| >= 2 && text[0] == '[' &&
           ElemSeparator(es) == (var inside := text[1..|text| - 1];
                                 if SkipSpace(inside, 0) == |inside| then "" else ",") by {
      ArrayAppendText(gap, es, msg);
    }
    DocMemberSolid(d, k);
    AppendToText(PrintDoc(d), DocSpan(d, k), text, ElemSeparator(es), Print(msg));
  }

  lemma ArraySplice(d: Doc, k: nat, gap: string, es: seq<Elem>, msg: Value, n: nat)
    requires WFDoc(d) && k < |d.members| && d.members[k].val == Arr(gap, es)
    requires n == |Print(Arr(gap, es))| - 1
    ensures var at := DocSpan(d, k).start + n;
            && at <= |PrintDoc(d)|
            && Splice(PrintDoc(d), at, at, ElemSeparator(es) + Print(msg)) ==
               PrintDoc(SetDoc(d, k, Arr(gap, AppendElem(gap, es, msg))))
  {
    EntryWF(d.members, k);
    ArrayAppendText(gap, es, msg);
    SpliceValue(d, k, n, n, ElemSeparator(es) + Print(msg), Arr(gap, AppendElem(gap, es, msg)));
  }

  lemma AppendInArray(d: Doc, k: nat, msg: Value)
    requires WFDoc(d) && k < |d.members| && d.members[k].val.Arr? && Solid(PrintDoc(d), DocSpan(d, k))
    ensures AppendToValue(PrintDoc(d), DocSpan(d, k), Print(msg)) ==
            PrintDoc(SetDoc(d, k, Appended(Some(d.members[k].val), msg)))
  {
    var Arr(gap, es) := d.members[k].val;
    var n := |Print(Arr(gap, es))| - 1;
    ArrayBranch(d, k, gap, es, msg, n);
    ArraySplice(d, k, gap, es, msg, n);
  }

  lemma AppendInMember(d: Doc, k: nat, msg: Value)
    requires WFDoc(d) && k < |d.members| && Solid(PrintDoc(d), DocSpan(d, k))
    ensures AppendToValue(PrintDoc(d), DocSpan(d, k), Print(msg)) ==
            PrintDoc(SetDoc(d, k, Appended(Some(d.members[k].val), msg)))
  {
    var v := d.members[k].val;
    if v.Arr? {
      AppendInArray(d, k, msg);
    } else {
      EntryWF(d.members, k);
      DocMemberSolid(d, k);
      FirstChar(v);
      SingleText(msg);
      ReplaceLaw(d, k, Single(msg));
      assert SetDoc(d, k, v) == d;
    }
  }

  /** Appending in the bytes appends in the tree. */
  lemma AppendLaw(d: Doc, msg: Value)
    requires WFDoc(d) && PlainKeys(d.members)
    ensures AppendAssistant(PrintDoc(d), Print(msg)) == PrintDoc(AppendDoc(d, msg))
  {
    DocLookup(d, "messages");
    ObjectBounded(PrintDoc(d));
    match LastIndex(d.members, "messages") {
      case None =>
        SingleText(msg);
        InsertLaw(d, "messages", Single(msg));
      case Some(k) => AppendInMember(d, k, msg);
    }
  }

  lemma AppendedWF(messages: Option<Value>, msg: Value)
    requires (messages.Some? ==> WF(messages.value)) && WF(msg)
    ensures WF(Appended(messages, msg))
  {
    ElemsAreWF([Elem("", msg, "")]);
    if messages.Some? && messages.value.Arr? {
      var es := AppendElem(messages.value.gap, messages.value.elems, msg);
      forall k | 0 <= k < |es|
        ensures Blank(es[k].pre) && Blank(es[k].post) && WF(es[k].val)
      {
        if k < |messages.value.elems| {
          ElemWF(messages.value.elems, k);
        }
      }
      ElemsAreWF(es);
    }
  }

  lemma MessagesWord()
    ensures StringBody("messages") && '\\' !in "messages"
  {
    PlainString("messages");
  }

  lemma AppendKeeps(d: Doc, msg: Value)
    requires WFDoc(d) && PlainKeys(d.members) && WF(msg)
    ensures WFDoc(AppendDoc(d, msg)) && PlainKeys(AppendDoc(d, msg).members)
  {
    match LastIndex(d.members, "messages") {
      case None =>
      case Some(k) => EntryWF(d.members, k);
    }
    AppendedWF(Lookup(d.members, "messages"), msg);
    MessagesWord();
    SetMemberKeeps(d, "messages", Appended(Lookup(d.members, "messages"), msg));
  }

  /** Read as a map, only the messages change. */
  lemma AppendLookups(d: Doc, msg: Value, key: string)
    ensures Lookup(AppendDoc(d, msg).members, key) ==
            if key == "messages" then Some(Appended(Lookup(d.members, "messages"), msg)) else Lookup(d.members, key)
  {
    SetMemberUpdatesMap(d, "messages", Appended(Lookup(d.members, "messages"), msg));
    MapLooksUp(d.members, key);
    MapLooksUp(AppendDoc(d, msg).members, key);
  }

  // ----- which identities survive -----

  predicate AssistantMessage(dec: Decoder, msg: Value) {
    msg.Obj? && WF(msg) && MessageOf(dec, msg).Message? && MessageOf(dec, msg).role == "assistant"
  }

  lemma {:induction false} SessionAnchorsKept(ms: seq<Message>, seen: Anchors, m: Message)
    requires m.Message? && m.role == "assistant"
    ensures SessionAnchors(ms + [m], seen) == SessionAnchors(ms, seen)
  {
    if ms != [] {
      assert (ms + [m])[1..] == ms[1..] + [m];
      if ms[0].Message? {
        SessionAnchorsKept(ms[1..], if ms[0].content.None? then seen else seen.Note(ms[0].role, ms[0].content.value), m);
      }
    }
  }

  lemma {:induction false} ConversationAnchorsKept(ms: seq<Message>, seen: Anchors, m: Message)
    requires m.Message? && m.role == "assistant"
    ensures ConversationAnchors(ms + [m], seen) == ConversationAnchors(ms, seen)
  {
    if ms != [] {
      assert (ms + [m])[1..] == ms[1..] + [m];
      if ms[0].Message? {
        ConversationAnchorsKept(ms[1..], seen.Note(ms[0].role, if ms[0].content.Some? then ms[0].content.value else ""), m);
      }
    }
  }

  lemma MessagesAppended(dec: Decoder, gap: string, es: seq<Elem>, msg: Value)
    ensures MessagesOf(dec, AppendElem(gap, es, msg)) == MessagesOf(dec, es) + [MessageOf(dec, msg)]
  {
  }

  /** Only an array can have anchors, and the appended turn adds none. */
  lemma AnchorsKept(dec: Decoder, messages: Option<Value>, msg: Value)
    requires AssistantMessage(dec, msg)
    ensures AnchorsOf(dec, Some(Appended(messages, msg))) == AnchorsOf(dec, messages)
  {
    if messages.Some? && messages.value.Arr? {
      MessagesAppended(dec, messages.value.gap, messages.value.elems, msg);
      SessionAnchorsKept(MessagesOf(dec, messages.value.elems), NONE, MessageOf(dec, msg));
    } else {
      MessagesAppended(dec, "", [], msg);
      SessionAnchorsKept([], NONE, MessageOf(dec, msg));
    }
  }

  predicate Appends(messages: Option<Value>) {
    messages.None? || messages.value.Arr? || NullLike(messages.value)
  }

  lemma ConversationOfKept(dec: Decoder, d: Doc, msg: Value)
    requires AssistantMessage(dec, msg)
    ensures ConversationOf(dec, AppendDoc(d, msg)) == ConversationOf(dec, d)
  {
    AppendLookups(d, msg, "model");
    AppendLookups(d, msg, "messages");
    var messages := Lookup(d.members, "messages");
    if messages.Some? && messages.value.Arr? {
      MessagesAppended(dec, messages.value.gap, messages.value.elems, msg);
      ConversationAnchorsKept(MessagesOf(dec, messages.value.elems), NONE, MessageOf(dec, msg));
    } else {
      MessagesAppended(dec, "", [], msg);
      ConversationAnchorsKept([], NONE, MessageOf(dec, msg));
    }
  }

  /** The conversation identity never changes when the assistant turn is appended. */
  lemma ConversationKept(dec: Decoder, d: Doc, msg: Value)
    requires WFDoc(d) && PlainKeys(d.members) && AssistantMessage(dec, msg)
    ensures ConversationID(dec, AppendAssistant(PrintDoc(d), Print(msg))) == ConversationID(dec, PrintDoc(d))
  {
    AppendLaw(d, msg);
    AppendKeeps(d, msg);
    ConversationRead(dec, d);
    ConversationRead(dec, AppendDoc(d, msg));
    ConversationOfKept(dec, d, msg);
  }

  // The session identity changes exactly when the body does and nothing anchors it.

  lemma {:induction false} StripAppended(gap: string, es: seq<Elem>, msg: Value)
    ensures StripElems(AppendElem(gap, es, msg)) == AppendElem("", StripElems(es), Strip(msg))
  {
    if es != [] {
      assert AppendElem(gap, es, msg)[1..] == es[1..] + [Elem("", msg, "")];
      if |es| > 1 {
        StripAppended(gap, es[1..], msg);
      } else {
        assert es[1..] + [Elem("", msg, "")] == [Elem("", msg, "")];
        assert StripElems(es) == [Elem("", Strip(es[0].val), "")];
      }
    }
  }

  lemma SpliceLonger(text: string, at: nat, s: string)
    requires at <= |text| && s != ""
    ensures |Splice(text, at, at, s)| > |text|
  {
  }

  lemma AppendedLonger(gap: string, es: seq<Elem>, msg: Value)
    requires Print(msg) != ""
    ensures |Print(Arr(gap, AppendElem(gap, es, msg)))| > |Print(Arr(gap, es))|
  {
    AppendElemLaw(gap, es, msg);
    var text := Print(Arr(gap, es));
    SpliceLonger(text, |text| - 1, ElemSeparator(es) + Print(msg));
  }

  /** Where a turn is appended, the text of the messages changes. */
  lemma AppendedTextDiffers(messages: Option<Value>, msg: Value)
    requires Appends(messages) && msg.Obj? && (messages.Some? ==> WF(messages.value))
    ensures MessagesText(Some(Appended(messages, msg))) != MessagesText(messages)
    ensures messages.Some? ==> Print(Appended(messages, msg)) != Print(messages.value)
  {
    if messages.Some? && messages.value.Arr? {
      var Arr(gap, es) := messages.value;
      AppendedLonger(gap, es, msg);
      StripAppended(gap, es, msg);
      AppendedLonger("", StripElems(es), Strip(msg));
    } else {
      SingleStart(msg);
    }
  }

  lemma SingleStart(msg: Value)
    ensures |Print(Single(msg))| > 0 && Print(Single(msg))[0] == '['
    ensures |Print(Strip(Single(msg)))| > 0 && Print(Strip(Single(msg)))[0] == '['
  {
  }

  lemma SameEnds(l: string, m: string, n: string, r: string)
    ensures l + m + r == l + n + r ==> m == n
  {
    if l + m + r == l + n + r {
      assert |m| == |n|;
      assert (l + m + r)[|l|..|l| + |m|] == m && (l + n + r)[|l|..|l| + |n|] == n;
    }
  }

  lemma AppendedBodyDiffers(d: Doc, msg: Value)
    requires WFDoc(d) && msg.Obj? && Appends(Lookup(d.members, "messages"))
    ensures PrintDoc(AppendDoc(d, msg)) != PrintDoc(d)
  {
    var messages := Lookup(d.members, "messages");
    match LastIndex(d.members, "messages") {
      case None =>
        AddLaw(d, [News("messages", Single(msg))]);
        OneNews("messages", Single(msg));
        SpliceLonger(PrintDoc(d), InsertionPoint(d), Separator(d.members) + Join(NewsTexts([News("messages", Single(msg))])));
      case Some(k) =>
        EntryWF(d.members, k);
        AppendedTextDiffers(messages, msg);
        DocSpanIs(d, k);
        DocAround(d, k, Appended(messages, msg));
        SameEnds(DocLeft(d, k), Print(d.members[k].val), Print(Appended(messages, msg)), DocRight(d, k));
    }
  }

  lemma Prefixed(a: string, s: string, t: string)
    ensures a + "\0" + s == a + "\0" + t ==> s == t
  {
    SameEnds(a + "\0", s, t, "");
    assert a + "\0" + s + "" == a + "\0" + s && a + "\0" + t + "" == a + "\0" + t;
  }

  /** The body names a model and has a system or user content to anchor on. */
  predicate Anchored(dec: Decoder, d: Doc) {
    ModelOf(dec, d).Some? && AnchorsOf(dec, Lookup(d.members, "messages")).Any()
  }

  lemma SessionOfKept(dec: Decoder, d: Doc, msg: Value)
    requires WFDoc(d) && AssistantMessage(dec, msg)
    ensures SessionOf(dec, AppendDoc(d, msg)) == SessionOf(dec, d) <==>
            Anchored(dec, d) || !Appends(Lookup(d.members, "messages"))
  {
    var messages := Lookup(d.members, "messages");
    AppendLookups(d, msg, "model");
    AppendLookups(d, msg, "messages");
    AnchorsKept(dec, messages, msg);
    if !Appends(messages) {
      assert AppendDoc(d, msg) == d;
    } else {
      match LastIndex(d.members, "messages") {
        case None =>
        case Some(k) => EntryWF(d.members, k);
      }
      AppendedBodyDiffers(d, msg);
      AppendedTextDiffers(messages, msg);
      if ModelOf(dec, d).Some? {
        Prefixed(ModelOf(dec, d).value, MessagesText(messages), MessagesText(Some(Appended(messages, msg))));
      }
    }
  }

  /** Exactly the anchored conversations, and the bodies the append leaves alone, keep their session. */
  lemma SessionKept(dec: Decoder, d: Doc, msg: Value)
    requires WFDoc(d) && PlainKeys(d.members) && AssistantMessage(dec, msg)
    ensures BodySessionID(dec, AppendAssistant(PrintDoc(d), Print(msg))) == BodySessionID(dec, PrintDoc(d)) <==>
            Anchored(dec, d) || !Appends(Lookup(d.members, "messages"))
  {
    AppendLaw(d, msg);
    AppendKeeps(d, msg);
    SessionRead(dec, d);
    SessionRead(dec, AppendDoc(d, msg));
    SessionOfKept(dec, d, msg);
  }

  // ----- the turn itself -----

  // One literal a lemma: together they are slow to unfold.
  lemma ContentWord() ensures StringBody("content") { PlainString("content"); }
  lemma ReasoningWord() ensures StringBody("reasoning_content") { PlainString("reasoning_content"); }
  lemma RoleWord() ensures StringBody("role") { PlainString("role"); }
  lemma AssistantWord() ensures StringBody("assistant") { PlainString("assistant"); }
  lemma CallsWord() ensures StringBody("tool_calls") { PlainString("tool_calls"); }
  lemma ArgumentsWord() ensures StringBody("arguments") { PlainString("arguments"); }
  lemma IdWord() ensures StringBody("id") { PlainString("id"); }

  predicate GoodEntry(m: Entry) { WFEntry(m) && '\\' !in m.key }

  lemma FieldGood(key: string, v: Value)
    requires StringBody(key) && '\\' !in key && WF(v)
    ensures GoodEntry(Field(key, v))
  {
  }

  lemma FieldsGood(ms: seq<Entry>)
    requires forall m :: m in ms ==> GoodEntry(m)
    ensures WF(Obj("", ms)) && PlainKeys(ms)
  {
    forall k | 0 <= k < |ms|
      ensures GoodEntry(ms[k])
    {
      assert ms[k] in ms;
    }
    EntriesWF(ms);
    KeysPlain(ms);
  }

  lemma TwoFields(m: Entry, n: Entry)
    requires GoodEntry(m) && GoodEntry(n)
    ensures WF(Obj("", [m, n]))
  {
    FieldsGood([m, n]);
  }

  lemma CallFunctionWF(enc: Encoder, call: ToolCall)
    requires Encodes(enc)
    ensures WF(Obj("", [Field("arguments", Str(enc(call.arguments))), Field("name", Str(enc(call.name)))]))
  {
    ArgumentsWord();
    NameWord();
    FieldGood("arguments", Str(enc(call.arguments)));
    FieldGood("name", Str(enc(call.name)));
    TwoFields(Field("arguments", Str(enc(call.arguments))), Field("name", Str(enc(call.name))));
  }

  lemma OptionalGood(m: Entry, there: bool, ms: seq<Entry>)
    requires (there ==> GoodEntry(m)) && forall k :: k in ms ==> GoodEntry(k)
    ensures forall k :: k in ms + (if there then [m] else []) ==> GoodEntry(k)
  {
  }

  lemma CallWF(enc: Encoder, call: ToolCall)
    requires Encodes(enc)
    ensures WF(CallValue(enc, call))
  {
    var fn := Obj("", [Field("arguments", Str(enc(call.arguments))), Field("name", Str(enc(call.name)))]);
    CallFunctionWF(enc, call);
    FunctionWord();
    FieldGood("function", fn);
    IdWord();
    FieldGood("id", Str(enc(call.id)));
    TypeWord();
    FieldGood("type", Str(enc(call.kind)));
    CallFieldsWF(Field("function", fn), call.id != "", Field("id", Str(enc(call.id))),
                 call.kind != "", Field("type", Str(enc(call.kind))));
  }

  lemma CallFieldsWF(f: Entry, withId: bool, id: Entry, withKind: bool, kind: Entry)
    requires GoodEntry(f) && GoodEntry(id) && GoodEntry(kind)
    ensures WF(Obj("", [f] + (if !withId then [] else [id]) + (if !withKind then [] else [kind])))
  {
    OptionalGood(id, withId, [f]);
    OptionalGood(kind, withKind, [f] + (if withId then [id] else []));
    FieldsGood([f] + (if withId then [id] else []) + (if withKind then [kind] else []));
  }

  lemma {:induction false} ReplayedWF(enc: Encoder, calls: seq<ToolCall>)
    requires Encodes(enc)
    ensures forall k :: 0 <= k < |Replayed(enc, calls)| ==> WF(Replayed(enc, calls)[k])
  {
    if calls != [] {
      CallWF(enc, calls[0]);
      ReplayedWF(enc, calls[1..]);
    }
  }

  /** Optional members around the role do not hide it. */
  lemma TurnFields(c: Entry, withR: bool, r: Entry, role: Value, withT: bool, t: Entry)
    requires GoodEntry(c) && GoodEntry(r) && GoodEntry(Field("role", role)) && GoodEntry(t) && t.key != "role"
    ensures var ms := [c] + (if withR then [r] else []) + [Field("role", role)] + (if withT then [t] else []);
            WF(Obj("", ms)) && PlainKeys(ms) && Lookup(ms, "role") == Some(role)
  {
    var before := [c] + (if withR then [r] else []);
    var ms := before + [Field("role", role)] + (if withT then [t] else []);
    OptionalGood(r, withR, [c]);
    OptionalGood(t, withT, before + [Field("role", role)]);
    FieldsGood(ms);
    LastIndexIs(ms, "role", |before|);
  }

  lemma ContentGood(enc: Encoder, s: string)
    requires Encodes(enc)
    ensures GoodEntry(Field("content", Str(enc(s))))
  {
    ContentWord();
    FieldGood("content", Str(enc(s)));
  }

  lemma ReasoningGood(enc: Encoder, s: string)
    requires Encodes(enc)
    ensures GoodEntry(Field("reasoning_content", Str(enc(s))))
  {
    ReasoningWord();
    FieldGood("reasoning_content", Str(enc(s)));
  }

  lemma RoleGood()
    ensures GoodEntry(Field("role", Str("assistant")))
  {
    RoleWord();
    AssistantWord();
    FieldGood("role", Str("assistant"));
  }

  lemma CallsGood(enc: Encoder, calls: seq<ToolCall>)
    requires Encodes(enc)
    ensures GoodEntry(Field("tool_calls", Arr("", FreshElems(Replayed(enc, calls), ""))))
  {
    CallsWord();
    ReplayedWF(enc, calls);
    FreshArrayWF(Replayed(enc, calls));
    FieldGood("tool_calls", Arr("", FreshElems(Replayed(enc, calls), "")));
  }

  lemma AssistantRole(dec: Decoder, ms: seq<Entry>)
    requires WF(Obj("", ms)) && PlainKeys(ms) && Lookup(ms, "role") == Some(Str("assistant"))
    requires dec(Quote("assistant")) == Some("assistant")
    ensures AssistantMessage(dec, Obj("", ms))
  {
  }

  /** The turn the source builds is an assistant message, whatever it replays. */
  lemma TurnIsAssistant(dec: Decoder, enc: Encoder, content: string, calls: seq<ToolCall>, reasoning: string)
    requires Encodes(enc) && dec(Quote("assistant")) == Some("assistant")
    ensures AssistantMessage(dec, AssistantTurn(enc, content, calls, reasoning))
  {
    ContentGood(enc, content);
    ReasoningGood(enc, reasoning);
    RoleGood();
    CallsGood(enc, calls);
    TurnFields(Field("content", Str(enc(content))), reasoning != "", Field("reasoning_content", Str(enc(reasoning))),
               Str("assistant"), Replayed(enc, calls) != [],
               Field("tool_calls", Arr("", FreshElems(Replayed(enc, calls), ""))));
    AssistantRole(dec, AssistantTurn(enc, content, calls, reasoning).members);
  }
}
