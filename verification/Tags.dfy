/**
 Which texts the dots_function_call patch of model_patch.go takes for tags, byte by byte:
 what an attribute form, a block and any other `<dots_function_call` become, in the
 stream and in the batch form.
 */
module Tags {
  import opened Text
  import opened Dots

  /** An opening tag: the name, one of these bytes behind it, and no `>` before the last. */
  predicate IsTag(attrs: string) {
    '>' !in attrs && (attrs + ">")[0] in {'>', '/', ' ', '\t', '\n', '\r'}
  }

  predicate EndsInSlash(attrs: string) { attrs != "" && attrs[|attrs| - 1] == '/' }

  function Tag(attrs: string): string { "<dots_function_call" + attrs + ">" }

  // ----- the opening tag -----

  lemma TagIs(attrs: string)
    ensures Tag(attrs) == OPEN + (attrs + ">")
    ensures |Tag(attrs)| == |OPEN| + |attrs| + 1
    ensures Tag(attrs)[|Tag(attrs)| - 1] == '>'
  {
  }

  lemma NameHasNoEnd()
    ensures '>' !in OPEN
  {
  }

  lemma TagBody(attrs: string)
    requires '>' !in attrs
    ensures forall k :: 0 <= k < |OPEN| + |attrs| ==> Tag(attrs)[k] != '>'
  {
    TagIs(attrs);
    NameHasNoEnd();
    forall k | 0 <= k < |OPEN| + |attrs|
      ensures Tag(attrs)[k] != '>'
    {
      if k < |OPEN| {
        assert Tag(attrs)[k] == OPEN[k];
      } else {
        assert Tag(attrs)[k] == attrs[k - |OPEN|];
      }
    }
  }

  /** The tag ends at its first `>`. */
  lemma TagEnd(attrs: string, rest: string)
    requires '>' !in attrs
    ensures Index(Tag(attrs) + rest, ">") == |Tag(attrs)| - 1
  {
    TagIs(attrs);
    TagBody(attrs);
    FirstIs(Tag(attrs) + rest, '>', |Tag(attrs)| - 1);
  }

  lemma TagHead(attrs: string, rest: string)
    requires IsTag(attrs)
    ensures var s := Tag(attrs) + rest;
            OPEN <= s && |s| > |OPEN| && s[0] == '<' && IsTagBoundary(s[|OPEN|])
  {
    TagIs(attrs);
    assert (Tag(attrs) + rest)[|OPEN|] == (attrs + ">")[0];
    assert (Tag(attrs) + rest)[..|OPEN|] == OPEN;
  }

  lemma TagCloses(attrs: string)
    ensures EndsWith(Tag(attrs), "/>") <==> EndsInSlash(attrs)
  {
    var t := Tag(attrs);
    TagIs(attrs);
    assert t[|t| - 2..] == [t[|t| - 2], t[|t| - 1]];
    assert t[|t| - 2] == if attrs == "" then OPEN[|OPEN| - 1] else attrs[|attrs| - 1];
    assert "/>" == ['/', '>'];
  }

  /** How the stream reads a tag at the head of its text. */
  lemma StreamTag(attrs: string, rest: string)
    requires IsTag(attrs)
    ensures Step(Waiting(Tag(attrs) + rest)) ==
            if EndsInSlash(attrs) then Cut([Element(Tag(attrs))], Waiting(rest))
            else Cut([], State(rest, true, Tag(attrs)))
  {
    var s := Tag(attrs) + rest;
    TagEnd(attrs, rest);
    TagHead(attrs, rest);
    TagCloses(attrs);
    CutExtend(Tag(attrs), rest, |Tag(attrs)|);
    assert Tag(attrs)[..|Tag(attrs)|] == Tag(attrs) && Tag(attrs)[|Tag(attrs)|..] + rest == rest;
    ClassifyTag(s, |Tag(attrs)| - 1);
  }

  /** How the batch form reads it, with a lead in front. */
  lemma BatchTag(i: nat, attrs: string, rest: string)
    requires IsTag(attrs)
    ensures OPEN <= Tag(attrs) + rest && FindAt(i, Tag(attrs) + rest) == FindBehind(i, Tag(attrs), rest)
  {
    TagEnd(attrs, rest);
    TagHead(attrs, rest);
    CutExtend(Tag(attrs), rest, |Tag(attrs)|);
    assert Tag(attrs)[..|Tag(attrs)|] == Tag(attrs) && Tag(attrs)[|Tag(attrs)|..] + rest == rest;
  }

  lemma OpenerBehind(lead: string, s: string)
    requires '<' !in lead && OPEN <= s
    ensures Find(lead + s) == FindAt(|lead|, s)
  {
    var text := lead + s;
    assert text[|lead|..] == s;
    assert text[|lead|..|lead| + |OPEN|] == s[..|OPEN|];
    forall k | 0 <= k < |lead|
      ensures !At(text, OPEN, k)
    {
      assert text[k] == lead[k];
      assert k + |OPEN| <= |text| ==> text[k..k + |OPEN|][0] == text[k] && OPEN[0] == '<';
    }
    IndexIs(text, OPEN, |lead|);
  }

  // ----- the closing tag -----

  lemma CloserStarts()
    ensures CLOSE[0] == '<' && forall k :: 0 < k < |CLOSE| ==> CLOSE[k] != '<'
  {
  }

  lemma NoCloserBefore(inner: string, rest: string, k: nat)
    requires !At(inner, CLOSE, k) && k < |inner|
    ensures !At(inner + CLOSE + rest, CLOSE, k)
  {
    var body := inner + CLOSE + rest;
    CloserStarts();
    assert body[|inner|] == CLOSE[0];
    if k + |CLOSE| <= |inner| {
      assert inner[k..k + |CLOSE|] == body[k..k + |CLOSE|];
    } else {
      assert body[k..k + |CLOSE|][|inner| - k] == body[|inner|];
    }
  }

  /** The closing tag behind an inner text that has none is the first. */
  lemma CloserFound(inner: string, rest: string)
    requires forall k :: !At(inner, CLOSE, k)
    ensures Index(inner + CLOSE + rest, CLOSE) == |inner|
  {
    var body := inner + CLOSE + rest;
    assert body[|inner|..|inner| + |CLOSE|] == CLOSE;
    forall k | 0 <= k < |inner|
      ensures !At(body, CLOSE, k)
    {
      NoCloserBefore(inner, rest, k);
    }
    IndexIs(body, CLOSE, |inner|);
  }

  lemma CloserParts(inner: string, rest: string)
    requires forall k :: !At(inner, CLOSE, k)
    ensures var body := inner + CLOSE + rest;
            && Index(body, CLOSE) == |inner| && body[..|inner|] == inner
            && |inner| + |CLOSE| <= |body| && body[|inner| + |CLOSE|..] == rest
  {
    CloserFound(inner, rest);
    CutExtend(inner, CLOSE + rest, |inner|);
    assert inner + CLOSE + rest == inner + (CLOSE + rest);
    assert inner[..|inner|] == inner;
  }

  // ----- what comes out -----

  /** What a segment and the text behind it emit, behind a lead without any `<`. */
  lemma SegmentEmits(p: Parsers, lead: string, s: string, seg: Segment, rest: string)
    requires '<' !in lead && !seg.Plain?
    requires Scan(Waiting(s)) == ([seg] + Scan(Waiting(rest)).0, Scan(Waiting(rest)).1)
    ensures var after := Consume(p, IDLE, rest);
            Consume(p, IDLE, lead + s) == Fed(lead + after.emit, CallsOf(p, seg) + after.calls, after.state)
  {
    var tail := Scan(Waiting(rest));
    ScanSkipsText(lead, s);
    assert Extend(IDLE, lead + s) == Waiting(lead + s) && Extend(IDLE, rest) == Waiting(rest);
    PlainsShown(p, lead);
    VisibleConcat(Plains(lead), [seg] + tail.0);
    VisibleConcat([seg], tail.0);
    CallsConcat(p, Plains(lead), [seg] + tail.0);
    CallsConcat(p, [seg], tail.0);
    OneSegment(p, seg);
    NoLead(Visible(tail.0), CallsOf(p, seg) + Calls(p, tail.0));
  }

  lemma NoLead(s: string, calls: seq<Call>)
    ensures "" + s == s && [] + calls == calls
  {
  }

  /** The batch form finds this segment. */
  predicate Found(f: Piece, i: nat, seg: Segment, rest: string) {
    match seg
    case Plain(_) => false
    case Element(tag) => f == Closed(i, tag, rest)
    case Block(tag, inner) => f == Whole(i, tag, inner, rest)
  }

  lemma SegmentExtracted(p: Parsers, lead: string, s: string, seg: Segment, rest: string)
    requires Found(Find(lead + s), |lead|, seg, rest)
    ensures Extract(p, lead + s) == (lead + Extract(p, rest).0, CallsOf(p, seg) + Extract(p, rest).1)
  {
    assert (lead + s)[..|lead|] == lead;
  }

  /** Both forms cut the segment off behind the lead. */
  lemma SegmentOut(p: Parsers, lead: string, s: string, seg: Segment, rest: string)
    requires '<' !in lead
    requires Scan(Waiting(s)) == ([seg] + Scan(Waiting(rest)).0, Scan(Waiting(rest)).1)
    requires Found(Find(lead + s), |lead|, seg, rest)
    ensures var after := Consume(p, IDLE, rest);
            && Consume(p, IDLE, lead + s) == Fed(lead + after.emit, CallsOf(p, seg) + after.calls, after.state)
            && Extract(p, lead + s) == (lead + Extract(p, rest).0, CallsOf(p, seg) + Extract(p, rest).1)
  {
    SegmentEmits(p, lead, s, seg, rest);
    SegmentExtracted(p, lead, s, seg, rest);
  }

  lemma ElementCut(lead: string, attrs: string, rest: string)
    requires '<' !in lead && IsTag(attrs) && EndsInSlash(attrs)
    ensures Scan(Waiting(Tag(attrs) + rest)) == ([Element(Tag(attrs))] + Scan(Waiting(rest)).0, Scan(Waiting(rest)).1)
    ensures Find(lead + (Tag(attrs) + rest)) == Closed(|lead|, Tag(attrs), rest)
  {
    StreamTag(attrs, rest);
    BatchTag(|lead|, attrs, rest);
    OpenerBehind(lead, Tag(attrs) + rest);
    TagCloses(attrs);
  }

  /** The self-closing form: nothing is emitted for it, and its call is the one read from the tag. */
  lemma AttributeForm(p: Parsers, lead: string, attrs: string, rest: string)
    requires '<' !in lead && IsTag(attrs) && EndsInSlash(attrs)
    ensures var call := p.attr("<dots_function_call" + attrs + ">");
            var found := if call.Some? then [call.value] else [];
            var text := lead + ("<dots_function_call" + attrs + ">" + rest);
            var after := Consume(p, IDLE, rest);
            && Consume(p, IDLE, text) == Fed(lead + after.emit, found + after.calls, after.state)
            && Extract(p, text) == (lead + Extract(p, rest).0, found + Extract(p, rest).1)
  {
    ElementCut(lead, attrs, rest);
    SegmentOut(p, lead, Tag(attrs) + rest, Element(Tag(attrs)), rest);
  }

  lemma BlockRead(i: nat, tag: string, inner: string, body: string, rest: string)
    requires !EndsWith(tag, "/>") && Index(body, CLOSE) == |inner| && body[..|inner|] == inner
    requires |inner| + |CLOSE| <= |body| && body[|inner| + |CLOSE|..] == rest
    ensures Step(State(body, true, tag)) == Cut([Block(tag, inner)], Waiting(rest))
    ensures FindBehind(i, tag, body) == Whole(i, tag, inner, rest)
  {
  }

  lemma BlockCut(lead: string, attrs: string, inner: string, body: string, rest: string)
    requires '<' !in lead && IsTag(attrs) && !EndsInSlash(attrs)
    requires forall k :: !At(inner, CLOSE, k)
    requires body == inner + CLOSE + rest
    ensures var tag := Tag(attrs);
            && Scan(Waiting(tag + body)) == ([Block(tag, inner)] + Scan(Waiting(rest)).0, Scan(Waiting(rest)).1)
            && Find(lead + (tag + body)) == Whole(|lead|, tag, inner, rest)
  {
    CloserParts(inner, rest);
    TagCloses(attrs);
    BlockRead(|lead|, Tag(attrs), inner, body, rest);
    StreamTag(attrs, body);
    ScanTwoSteps(Waiting(Tag(attrs) + body), State(body, true, Tag(attrs)), Block(Tag(attrs), inner), Waiting(rest));
    BatchTag(|lead|, attrs, body);
    OpenerBehind(lead, Tag(attrs) + body);
  }

  /** A block: nothing is emitted for it, and its calls are those read from its tag and inner text. */
  lemma BlockForm(p: Parsers, lead: string, attrs: string, inner: string, rest: string)
    requires '<' !in lead && IsTag(attrs) && !EndsInSlash(attrs)
    requires forall k :: !At(inner, "</dots_function_call>", k)
    ensures var found := p.block(inner, "<dots_function_call" + attrs + ">");
            var text := lead + ("<dots_function_call" + attrs + ">" + (inner + "</dots_function_call>" + rest));
            var after := Consume(p, IDLE, rest);
            && Consume(p, IDLE, text) == Fed(lead + after.emit, found + after.calls, after.state)
            && Extract(p, text) == (lead + Extract(p, rest).0, found + Extract(p, rest).1)
  {
    var body := inner + CLOSE + rest;
    BlockCut(lead, attrs, inner, body, rest);
    SegmentOut(p, lead, Tag(attrs) + body, Block(Tag(attrs), inner), rest);
  }

  lemma OrdinaryText(p: Parsers, lead: string, s: string)
    requires '<' !in lead && OPEN <= s && |s| > |OPEN| && !IsTagBoundary(s[|OPEN|])
    ensures Step(Waiting(s)) == Cut([Plain('<')], Waiting(s[1..]))
    ensures Extract(p, lead + s) == (lead + "<" + Extract(p, s[1..]).0, Extract(p, s[1..]).1)
  {
    var text := lead + s;
    OpenerBehind(lead, s);
    assert s[0] == OPEN[0] == '<';
    assert text[..|lead| + 1] == lead + "<" && text[|lead| + 1..] == s[1..];
  }

  lemma NameBehind(c: char, rest: string, s: string)
    requires s == "<dots_function_call" + [c] + rest
    ensures OPEN <= s && |s| > |OPEN| && s[|OPEN|] == c && s[1..] == "dots_function_call" + ([c] + rest)
    ensures '<' !in "dots_function_call"
  {
    assert s[..|OPEN|] == OPEN;
  }

  /** Any other byte behind the name: the `<` is text, and so is the name. */
  lemma NotATagForm(p: Parsers, lead: string, c: char, rest: string)
    requires '<' !in lead && c !in {'>', '/', ' ', '\t', '\n', '\r'}
    ensures var text := lead + ("<dots_function_call" + [c] + rest);
            var behind := "dots_function_call" + ([c] + rest);
            var after := Consume(p, IDLE, [c] + rest);
            && Consume(p, IDLE, text) == Fed(lead + ("<" + "dots_function_call" + after.emit), after.calls, after.state)
            && Extract(p, text) == (lead + "<" + Extract(p, behind).0, Extract(p, behind).1)
  {
    var s := "<dots_function_call" + [c] + rest;
    NameBehind(c, rest, s);
    OrdinaryText(p, lead, s);
    OrdinaryEmits(p, lead, s, "dots_function_call", [c] + rest);
  }

  lemma OrdinaryEmits(p: Parsers, lead: string, s: string, name: string, rest: string)
    requires '<' !in lead && '<' !in name && s != "" && Step(Waiting(s)) == Cut([Plain('<')], Waiting(name + rest))
    ensures var after := Consume(p, IDLE, rest);
            Consume(p, IDLE, lead + s) == Fed(lead + ("<" + name + after.emit), after.calls, after.state)
  {
    var tail := Scan(Waiting(rest));
    ScanSkipsText(lead, s);
    ScanSkipsText(name, rest);
    assert Extend(IDLE, lead + s) == Waiting(lead + s) && Extend(IDLE, rest) == Waiting(rest);
    ShownText(p, name, tail.0);
    ShownText(p, "<", Plains(name) + tail.0);
    ShownText(p, lead, Plains("<") + (Plains(name) + tail.0));
    assert Plains("<") == [Plain('<')];
    RegroupThree("<", name, Visible(tail.0));
  }

  lemma ShownText(p: Parsers, text: string, segs: seq<Segment>)
    ensures Visible(Plains(text) + segs) == text + Visible(segs) && Calls(p, Plains(text) + segs) == Calls(p, segs)
  {
    PlainsShown(p, text);
    VisibleConcat(Plains(text), segs);
    CallsConcat(p, Plains(text), segs);
    NoLead("", Calls(p, segs));
  }

  /** A text in which the tag name never follows a `<` comes out whole and yields no call. */
  lemma NoTagForm(p: Parsers, text: string)
    requires forall k :: !At(text, "<dots_function_call", k)
    ensures var fed := Consume(p, IDLE, text);
            fed.emit + fed.state.pending == text && fed.calls == [] && Extract(p, text) == (text, [])
  {
    assert Extend(IDLE, text) == Waiting(text);
    ScanNoOpener(p, text);
  }
}
