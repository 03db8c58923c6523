/**
 The dots_function_call patch of model_patch.go: a holdback state machine that
 strips tool-call blocks out of text arriving in pieces, and the batch form
 that does the same to a whole text.

 `Scan` is the reference: it walks the text one character at a time and cuts it
 into segments.  The streaming and the batch code are both related to it.
 */
module Dots {
  import opened Text

  const OPEN := "<dots_function_call"
  const CLOSE := "</dots_function_call>"

  datatype Call = Call(name: string, arguments: string)

  /** parseDotsBlock(inner, openTag) and parseDotsAttrCall(openTag), left uninterpreted. */
  datatype Parsers = Parsers(block: (string, string) -> seq<Call>, attr: string -> Option<Call>)

  /** The fields of dotsFieldState. */
  datatype State = State(pending: string, inTag: bool, openTag: string)

  const IDLE := State("", false, "")

  function Waiting(text: string): State { State(text, false, "") }

  datatype Segment =
    | Plain(c: char)
    | Element(openTag: string)
    | Block(openTag: string, inner: string)

  // ----- what a '<' at the head of the text stands for -----

  predicate IsTagBoundary(c: char) {
    c == '>' || c == '/' || c == ' ' || c == '\t' || c == '\n' || c == '\r'
  }

  predicate EndsWith(s: string, suffix: string) {
    |suffix| <= |s| && s[|s| - |suffix|..] == suffix
  }

  datatype Opener = Incomplete | Ordinary | Single(n: nat) | Opening(n: nat)

  /** How feed reads a text that begins with '<'; `n` is the length of the opening tag. */
  function Classify(rest: string): (o: Opener)
    requires rest != "" && rest[0] == '<'
    ensures o.Single? || o.Opening? ==> |OPEN| < o.n <= |rest| && OPEN <= rest[..o.n]
  {
    if OPEN <= rest then
      if |rest| == |OPEN| then Incomplete
      else if !IsTagBoundary(rest[|OPEN|]) then Ordinary
      else
        var j := Index(rest, ">");
        if j < 0 then Incomplete
        else
          TagEndsAfterOpener(rest, j);
          if EndsWith(rest[..j + 1], "/>") then Single(j + 1) else Opening(j + 1)
    else if |rest| < |OPEN| && rest <= OPEN then Incomplete
    else Ordinary
  }

  lemma TagEndsAfterOpener(rest: string, j: int)
    requires OPEN <= rest && j == Index(rest, ">") && 0 <= j
    ensures |OPEN| <= j < |rest| && OPEN <= rest[..j + 1]
  {
    IndexOfChar(rest, '>');
    assert forall k :: 0 <= k < |OPEN| ==> rest[k] == OPEN[k];
    assert forall k :: 0 <= k < |OPEN| ==> OPEN[k] != '>';
  }

  lemma ClassifyExtend(rest: string, t: string)
    requires rest != "" && rest[0] == '<' && Classify(rest) != Incomplete
    ensures Classify(rest + t) == Classify(rest)
  {
    if OPEN <= rest {
      assert OPEN <= rest + t;
      if IsTagBoundary(rest[|OPEN|]) {
        IndexExtend(rest, t, ">");
        var j := Index(rest, ">");
        TagEndsAfterOpener(rest, j);
        assert (rest + t)[..j + 1] == rest[..j + 1];
      }
    } else {
      // The text already differs from the opener, whatever follows it.
      if |rest| >= |OPEN| {
        assert (rest + t)[..|OPEN|] == rest[..|OPEN|];
      } else {
        assert (rest + t)[..|rest|] == rest;
        assert !(rest <= OPEN);
      }
    }
  }

  // ----- the reference scan -----

  /** One turn of the scan: stop for want of text, or cut off a segment and go on. */
  datatype Turn = Stop | Cut(segs: seq<Segment>, next: State)

  function Step(st: State): (turn: Turn)
    ensures turn.Cut? ==> |turn.next.pending| < |st.pending|
    ensures turn.Cut? && !turn.next.inTag ==> turn.next.openTag == ""
  {
    if st.inTag then
      var k := Index(st.pending, CLOSE);
      if k < 0 then Stop
      else Cut([Block(st.openTag, st.pending[..k])], Waiting(st.pending[k + |CLOSE|..]))
    else if st.pending == "" then Stop
    else if st.pending[0] != '<' then Cut([Plain(st.pending[0])], Waiting(st.pending[1..]))
    else
      match Classify(st.pending)
      case Incomplete => Stop
      case Ordinary => Cut([Plain('<')], Waiting(st.pending[1..]))
      case Single(n) => Cut([Element(st.pending[..n])], Waiting(st.pending[n..]))
      case Opening(n) => Cut([], State(st.pending[n..], true, st.pending[..n]))
  }

  /** Cuts off every segment that is already decided; the state keeps the rest. */
  function Scan(st: State): (r: (seq<Segment>, State))
    decreases |st.pending|
  {
    match Step(st)
    case Stop => ([], st)
    case Cut(segs, next) => (segs + Scan(next).0, Scan(next).1)
  }

  /** Text shown to the client: everything outside tags. */
  function Visible(segs: seq<Segment>): string {
    if segs == [] then "" else VisibleOf(segs[0]) + Visible(segs[1..])
  }

  function VisibleOf(seg: Segment): string {
    if seg.Plain? then [seg.c] else ""
  }

  function CallsOf(p: Parsers, seg: Segment): seq<Call> {
    match seg
    case Plain(_) => []
    case Element(tag) => (match p.attr(tag) case Some(c) => [c] case None => [])
    case Block(tag, inner) => p.block(inner, tag)
  }

  /** The tool calls of the blocks, in order. */
  function Calls(p: Parsers, segs: seq<Segment>): seq<Call> {
    if segs == [] then [] else CallsOf(p, segs[0]) + Calls(p, segs[1..])
  }

  /** The bytes a segment was cut from. */
  function Raw(seg: Segment): string {
    match seg
    case Plain(c) => [c]
    case Element(tag) => tag
    case Block(tag, inner) => tag + inner + CLOSE
  }

  function RawAll(segs: seq<Segment>): string {
    if segs == [] then "" else Raw(segs[0]) + RawAll(segs[1..])
  }

  lemma Associative<T>(a: seq<T>, b: seq<T>, c: seq<T>)
    ensures a + (b + c) == (a + b) + c
  {
  }

  lemma {:induction false} VisibleConcat(a: seq<Segment>, b: seq<Segment>)
    ensures Visible(a + b) == Visible(a) + Visible(b)
  {
    if a == [] {
      assert a + b == b;
    } else {
      assert (a + b)[1..] == a[1..] + b;
      VisibleConcat(a[1..], b);
      Associative(VisibleOf(a[0]), Visible(a[1..]), Visible(b));
    }
  }

  lemma {:induction false} CallsConcat(p: Parsers, a: seq<Segment>, b: seq<Segment>)
    ensures Calls(p, a + b) == Calls(p, a) + Calls(p, b)
  {
    if a == [] {
      assert a + b == b;
    } else {
      assert (a + b)[1..] == a[1..] + b;
      CallsConcat(p, a[1..], b);
      Associative(CallsOf(p, a[0]), Calls(p, a[1..]), Calls(p, b));
    }
  }

  function Plains(s: string): (segs: seq<Segment>)
    ensures |segs| == |s| && forall i :: 0 <= i < |s| ==> segs[i] == Plain(s[i])
  {
    seq(|s|, i requires 0 <= i < |s| => Plain(s[i]))
  }

  lemma {:induction false} PlainsShown(p: Parsers, s: string)
    ensures Visible(Plains(s)) == s && Calls(p, Plains(s)) == []
  {
    if s != "" {
      assert Plains(s)[1..] == Plains(s[1..]);
      PlainsShown(p, s[1..]);
    }
  }

  lemma PlainsCons(a: string, tail: seq<Segment>)
    requires a != ""
    ensures [Plain(a[0])] + (Plains(a[1..]) + tail) == Plains(a) + tail
  {
  }

  /** Text before the next '<' passes straight through. */
  lemma {:induction false} ScanSkipsText(a: string, b: string)
    requires '<' !in a
    ensures Scan(Waiting(a + b)) == (Plains(a) + Scan(Waiting(b)).0, Scan(Waiting(b)).1)
  {
    if a == "" {
      assert a + b == b && Plains(a) + Scan(Waiting(b)).0 == Scan(Waiting(b)).0;
    } else {
      assert (a + b)[0] == a[0] && (a + b)[1..] == a[1..] + b;
      assert Step(Waiting(a + b)) == Cut([Plain(a[0])], Waiting(a[1..] + b));
      ScanSkipsText(a[1..], b);
      PlainsCons(a, Scan(Waiting(b)).0);
    }
  }

  // ----- chunk independence -----

  function Extend(st: State, t: string): State { st.(pending := st.pending + t) }

  lemma CutExtend(s: string, t: string, n: nat)
    requires n <= |s|
    ensures (s + t)[..n] == s[..n] && (s + t)[n..] == s[n..] + t
  {
  }

  /** A decided turn is not changed by text arriving behind it. */
  lemma StepExtend(st: State, t: string)
    requires st.inTag || st.openTag == ""
    requires Step(st).Cut?
    ensures Step(Extend(st, t)) == Cut(Step(st).segs, Extend(Step(st).next, t))
  {
    if st.inTag {
      IndexExtend(st.pending, t, CLOSE);
      var k := Index(st.pending, CLOSE);
      CutExtend(st.pending, t, k);
      CutExtend(st.pending, t, k + |CLOSE|);
    } else if st.pending[0] != '<' {
      CutExtend(st.pending, t, 1);
    } else {
      ClassifyExtend(st.pending, t);
      match Classify(st.pending) {
        case Ordinary => CutExtend(st.pending, t, 1);
        case Single(n) => CutExtend(st.pending, t, n);
        case Opening(n) => CutExtend(st.pending, t, n);
      }
    }
  }

  /** Scanning text in one go or in two pieces cuts the same segments. */
  lemma {:induction false} ScanSplit(st: State, t: string)
    requires st.inTag || st.openTag == ""
    ensures Scan(Extend(st, t)) == (Scan(st).0 + Scan(Extend(Scan(st).1, t)).0, Scan(Extend(Scan(st).1, t)).1)
    decreases |st.pending|
  {
    match Step(st) {
      case Stop =>
        assert [] + Scan(Extend(st, t)).0 == Scan(Extend(st, t)).0;
      case Cut(segs, next) =>
        StepExtend(st, t);
        ScanSplit(next, t);
        Associative(segs, Scan(next).0, Scan(Extend(Scan(next).1, t)).0);
    }
  }

  /** What one call of feed emits, the calls it completes, and the state it leaves. */
  datatype Fed = Fed(emit: string, calls: seq<Call>, state: State)

  function Consume(p: Parsers, st: State, text: string): Fed {
    var (segs, last) := Scan(Extend(st, text));
    Fed(Visible(segs), Calls(p, segs), last)
  }

  /** Feeding a list of chunks one after the other. */
  function FeedAll(p: Parsers, st: State, chunks: seq<string>): Fed
    decreases |chunks|
  {
    if chunks == [] then Fed("", [], st)
    else
      var one := Consume(p, st, chunks[0]);
      var rest := FeedAll(p, one.state, chunks[1..]);
      Fed(one.emit + rest.emit, one.calls + rest.calls, rest.state)
  }

  function Join(chunks: seq<string>): string {
    if chunks == [] then "" else chunks[0] + Join(chunks[1..])
  }

  /** What feed leaves behind after any input. */
  predicate Settled(st: State) {
    (st.inTag || st.openTag == "") && Step(st).Stop?
  }

  lemma {:induction false} ScanSettles(st: State)
    requires st.inTag || st.openTag == ""
    ensures Settled(Scan(st).1)
    decreases |st.pending|
  {
    match Step(st) {
      case Stop =>
      case Cut(_, next) => ScanSettles(next);
    }
  }

  lemma ExtendTwice(st: State, a: string, b: string)
    ensures Extend(st, a + b) == Extend(Extend(st, a), b)
  {
  }

  lemma FeedTwice(p: Parsers, st: State, a: string, b: string)
    requires st.inTag || st.openTag == ""
    ensures var one := Consume(p, st, a);
            var two := Consume(p, one.state, b);
            Consume(p, st, a + b) == Fed(one.emit + two.emit, one.calls + two.calls, two.state)
  {
    var start := Extend(st, a);
    var (s1, mid) := Scan(start);
    ScanSplit(start, b);
    ExtendTwice(st, a, b);
    var s2 := Scan(Extend(mid, b)).0;
    VisibleConcat(s1, s2);
    CallsConcat(p, s1, s2);
  }

  /** Chunk independence: only the concatenation of the chunks matters. */
  lemma {:induction false} ChunkIndependence(p: Parsers, st: State, chunks: seq<string>)
    requires Settled(st)
    ensures FeedAll(p, st, chunks) == Consume(p, st, Join(chunks))
    decreases |chunks|
  {
    if chunks == [] {
      assert Extend(st, "") == st;
    } else {
      var start := Extend(st, chunks[0]);
      ScanSettles(start);
      ChunkIndependence(p, Scan(start).1, chunks[1..]);
      FeedTwice(p, st, chunks[0], Join(chunks[1..]));
    }
  }

  // ----- text accounting -----

  lemma {:induction false} RawConcat(a: seq<Segment>, b: seq<Segment>)
    ensures RawAll(a + b) == RawAll(a) + RawAll(b)
  {
    if a == [] {
      assert a + b == b;
    } else {
      assert (a + b)[1..] == a[1..] + b;
      RawConcat(a[1..], b);
      Associative(Raw(a[0]), RawAll(a[1..]), RawAll(b));
    }
  }

  lemma RawOne(seg: Segment)
    ensures RawAll([seg]) == Raw(seg)
  {
    assert [seg][1..] == [];
  }

  lemma CutInThree(s: string, k: nat, sub: string)
    requires At(s, sub, k)
    ensures s == s[..k] + sub + s[k + |sub|..]
  {
  }

  lemma StepAccounting(st: State)
    requires st.inTag || st.openTag == ""
    requires Step(st).Cut?
    ensures RawAll(Step(st).segs) + Step(st).next.openTag + Step(st).next.pending == st.openTag + st.pending
  {
    if st.inTag {
      var k := Index(st.pending, CLOSE);
      RawOne(Block(st.openTag, st.pending[..k]));
      CutInThree(st.pending, k, CLOSE);
      RegroupFour(st.openTag, st.pending[..k], CLOSE, st.pending[k + |CLOSE|..]);
    } else if st.pending[0] != '<' || Classify(st.pending).Ordinary? {
      RawOne(Plain(st.pending[0]));
      assert st.pending == [st.pending[0]] + st.pending[1..];
    } else {
      match Classify(st.pending) {
        case Single(n) =>
          RawOne(Element(st.pending[..n]));
          assert st.pending == st.pending[..n] + st.pending[n..];
        case Opening(n) =>
          assert st.pending == st.pending[..n] + st.pending[n..];
      }
    }
  }

  lemma RegroupThree(a: string, b: string, c: string)
    ensures a + (b + c) == a + b + c
  {
  }

  lemma RegroupFour(a: string, b: string, c: string, d: string)
    ensures a + b + c + d == a + (b + c + d)
    ensures (a + (b + c)) + d == a + (b + (c + d))
  {
  }

  /** No byte is lost: segments, stored opening tag and held text spell out the input. */
  lemma {:induction false} TextAccounting(st: State)
    requires st.inTag || st.openTag == ""
    ensures var (segs, last) := Scan(st);
            RawAll(segs) + last.openTag + last.pending == st.openTag + st.pending
    decreases |st.pending|
  {
    match Step(st) {
      case Stop =>
      case Cut(segs, next) =>
        StepAccounting(st);
        TextAccounting(next);
        var (rest, last) := Scan(next);
        RawConcat(segs, rest);
        RegroupFour(RawAll(segs), RawAll(rest), last.openTag, last.pending);
        RegroupThree(RawAll(segs), next.openTag, next.pending);
    }
  }

  /** What is cut off while chunks are fed one after the other, and the state left behind. */
  function CutAll(st: State, chunks: seq<string>): (seq<Segment>, State)
    decreases |chunks|
  {
    if chunks == [] then ([], st)
    else
      var (segs, mid) := Scan(Extend(st, chunks[0]));
      var (rest, last) := CutAll(mid, chunks[1..]);
      (segs + rest, last)
  }

  /** The output of the stream is that of the segments cut off. */
  lemma {:induction false} CutsAreFed(p: Parsers, st: State, chunks: seq<string>)
    ensures var (segs, last) := CutAll(st, chunks);
            FeedAll(p, st, chunks) == Fed(Visible(segs), Calls(p, segs), last)
    decreases |chunks|
  {
    if chunks != [] {
      var (segs, mid) := Scan(Extend(st, chunks[0]));
      CutsAreFed(p, mid, chunks[1..]);
      VisibleConcat(segs, CutAll(mid, chunks[1..]).0);
      CallsConcat(p, segs, CutAll(mid, chunks[1..]).0);
    }
  }

  /**
   Over a whole stream, in whatever chunks: the emitted text and the removed blocks, in
   order, then the stored opening tag and the held text, are exactly the bytes fed.
   */
  lemma {:induction false} StreamAccounting(st: State, chunks: seq<string>)
    requires st.inTag || st.openTag == ""
    ensures var (segs, last) := CutAll(st, chunks);
            RawAll(segs) + last.openTag + last.pending == st.openTag + st.pending + Join(chunks)
    decreases |chunks|
  {
    if chunks == [] {
      assert "" + st.openTag + st.pending == st.openTag + st.pending + "";
    } else {
      var start := Extend(st, chunks[0]);
      var (segs, mid) := Scan(start);
      TextAccounting(start);
      ScanSettles(start);
      StreamAccounting(mid, chunks[1..]);
      var (rest, last) := CutAll(mid, chunks[1..]);
      RawConcat(segs, rest);
      ChunkAccounted(st.openTag, st.pending, chunks[0], Join(chunks[1..]), RawAll(segs), mid.openTag, mid.pending,
                     RawAll(rest), last.openTag, last.pending);
    }
  }

  lemma ChunkAccounted(tag: string, held: string, chunk: string, more: string, raw: string, midTag: string,
                       midHeld: string, rest: string, lastTag: string, lastHeld: string)
    requires raw + midTag + midHeld == tag + (held + chunk)
    requires rest + lastTag + lastHeld == midTag + midHeld + more
    ensures raw + rest + lastTag + lastHeld == tag + held + (chunk + more)
  {
    assert raw + rest + lastTag + lastHeld == raw + (rest + lastTag + lastHeld);
    assert raw + (midTag + midHeld + more) == raw + midTag + midHeld + more;
    assert tag + (held + chunk) + more == tag + held + (chunk + more);
  }

  /** An opening tag that still waits for its '>'. */
  predicate UnclosedOpener(s: string) {
    OPEN <= s && |s| > |OPEN| && IsTagBoundary(s[|OPEN|]) && '>' !in s
  }

  /** The only texts feed may hold back outside a block. */
  predicate Held(s: string) {
    s == "" || (s <= OPEN && s != "") || UnclosedOpener(s)
  }

  /** Outside a block, exactly these texts stop the scan. */
  lemma HeldText(st: State)
    requires !st.inTag
    ensures Step(st).Stop? <==> Held(st.pending)
  {
    if st.pending != "" && st.pending[0] == '<' {
      IndexOfChar(st.pending, '>');
    }
  }

  // ----- the batch form -----

  /** What the batch loop finds in front of it. */
  datatype Piece =
    | NoOpener
    | NotATag(i: nat)
    | CutTag(i: nat)
    | Closed(i: nat, tag: string, rest: string)
    | CutBlock(i: nat, tag: string)
    | Whole(i: nat, tag: string, inner: string, rest: string)

  function Find(search: string): (piece: Piece)
    ensures !piece.NoOpener? ==> piece.i == Index(search, OPEN) < |search|
    ensures piece.Closed? || piece.Whole? ==> |piece.rest| < |search|
    ensures piece.CutBlock? ==> piece.tag <= search[piece.i..]
  {
    var i := Index(search, OPEN);
    if i < 0 then NoOpener
    else
      AtIsPrefix(search, OPEN, i);
      FindAt(i, search[i..])
  }

  /** What it makes of a text that begins with the opener. */
  function FindAt(i: nat, s: string): (piece: Piece)
    requires OPEN <= s
    ensures !piece.NoOpener? && piece.i == i
    ensures piece.Closed? || piece.Whole? ==> |piece.rest| < |s|
    ensures piece.CutBlock? ==> piece.tag <= s
  {
    if |s| == |OPEN| || !IsTagBoundary(s[|OPEN|]) then NotATag(i)
    else
      var j := Index(s, ">");
      if j < 0 then CutTag(i) else FindBehind(i, s[..j + 1], s[j + 1..])
  }

  /** What the batch loop makes of an opening tag and the text behind it. */
  function FindBehind(i: nat, tag: string, rest: string): (piece: Piece)
    ensures piece.Closed? || piece.Whole? || piece.CutBlock?
    ensures piece.i == i && piece.tag == tag
    ensures piece.Closed? ==> piece.rest == rest
    ensures piece.Whole? ==> |piece.rest| <= |rest|
  {
    if EndsWith(tag, "/>") then Closed(i, tag, rest)
    else
      var k := Index(rest, CLOSE);
      if k < 0 then CutBlock(i, tag) else Whole(i, tag, rest[..k], rest[k + |CLOSE|..])
  }

  /** extractDotsCalls: the cleaned text and the calls of a whole text. */
  function Extract(p: Parsers, search: string): (string, seq<Call>)
    decreases |search|
  {
    match Find(search)
    case NoOpener => (search, [])
    case NotATag(i) =>
      (search[..i + 1] + Extract(p, search[i + 1..]).0, Extract(p, search[i + 1..]).1)
    case CutTag(i) => (search[i..], [])
    case Closed(i, tag, rest) =>
      (search[..i] + Extract(p, rest).0, CallsOf(p, Element(tag)) + Extract(p, rest).1)
    case CutBlock(i, _) => (search[i..], [])
    case Whole(i, tag, inner, rest) =>
      (search[..i] + Extract(p, rest).0, CallsOf(p, Block(tag, inner)) + Extract(p, rest).1)
  }

  /** What has been written so far, followed by what the rest of the text yields. */
  function WithRest(p: Parsers, out: string, calls: seq<Call>, search: string): (string, seq<Call>) {
    (out + Extract(p, search).0, calls + Extract(p, search).1)
  }

  /** One turn of the batch loop: the prefix moved to the output is accounted for. */
  lemma Advance(p: Parsers, out: string, calls: seq<Call>, search: string)
    ensures WithRest(p, out, calls, search) ==
            match Find(search)
            case NoOpener => (out + search, calls)
            case NotATag(i) => WithRest(p, out + search[..i + 1], calls, search[i + 1..])
            case CutTag(i) => (out + search[i..], calls)
            case Closed(i, tag, rest) =>
              WithRest(p, out + search[..i], calls + CallsOf(p, Element(tag)), rest)
            case CutBlock(i, _) => (out + search[i..], calls)
            case Whole(i, tag, inner, rest) =>
              WithRest(p, out + search[..i], calls + CallsOf(p, Block(tag, inner)), rest)
  {
    assert calls + [] == calls;
    match Find(search) {
      case NoOpener =>
      case NotATag(i) => Grow(out, calls, search[..i + 1], [], Extract(p, search[i + 1..]));
      case CutTag(_) =>
      case Closed(i, tag, rest) => Grow(out, calls, search[..i], CallsOf(p, Element(tag)), Extract(p, rest));
      case CutBlock(_, _) =>
      case Whole(i, tag, inner, rest) =>
        Grow(out, calls, search[..i], CallsOf(p, Block(tag, inner)), Extract(p, rest));
    }
  }

  lemma Grow(out: string, calls: seq<Call>, lead: string, found: seq<Call>, tail: (string, seq<Call>))
    ensures out + (lead + tail.0) == (out + lead) + tail.0
    ensures calls + (found + tail.1) == (calls + found) + tail.1
    ensures calls + ([] + tail.1) == calls + tail.1
  {
  }

  lemma NothingYet(p: Parsers, text: string)
    ensures WithRest(p, "", [], text) == Extract(p, text)
  {
    var r := Extract(p, text);
    assert "" + r.0 == r.0 && [] + r.1 == r.1;
  }

  method ExtractDotsCalls(p: Parsers, text: string) returns (cleaned: string, calls: seq<Call>)
    ensures (cleaned, calls) == Extract(p, text)
  {
    cleaned, calls := "", [];
    var search := text;
    NothingYet(p, text);
    while true
      invariant WithRest(p, cleaned, calls, search) == Extract(p, text)
      decreases |search|
    {
      Advance(p, cleaned, calls, search);
      match Find(search) {
        case NoOpener =>
          return cleaned + search, calls;
        case NotATag(i) =>
          cleaned, search := cleaned + search[..i + 1], search[i + 1..];
        case CutTag(i) =>
          return cleaned + search[i..], calls;
        case Closed(i, tag, rest) =>
          cleaned, calls := cleaned + search[..i], calls + CallsOf(p, Element(tag));
          search := rest;
        case CutBlock(i, _) =>
          return cleaned + search[i..], calls;
        case Whole(i, tag, inner, rest) =>
          cleaned, calls := cleaned + search[..i], calls + CallsOf(p, Block(tag, inner));
          search := rest;
      }
    }
  }

  // ----- streaming against batch -----

  /** How a text ends: every opener terminated, or cut inside a tag or a block. */
  datatype Ending = Clean | InTag(lead: nat) | InBlock

  function EndingOf(search: string): Ending
    decreases |search|
  {
    match Find(search)
    case NoOpener => Clean
    case NotATag(i) => EndingOf(search[i + 1..])
    case CutTag(i) => InTag(i)
    case Closed(_, _, rest) => EndingOf(rest)
    case CutBlock(_, _) => InBlock
    case Whole(_, _, _, rest) => EndingOf(rest)
  }

  /** Text the stream shows in total once it is flushed. */
  function Shown(r: (seq<Segment>, State)): string {
    Visible(r.0) + r.1.pending
  }

  /** Up to the first opener, or to the end, every character is ordinary text. */
  lemma {:induction false} ScanLead(a: string, b: string)
    requires OPEN <= b
    requires forall k :: 0 <= k < |a| ==> !At(a + b, OPEN, k)
    ensures Scan(Waiting(a + b)) == (Plains(a) + Scan(Waiting(b)).0, Scan(Waiting(b)).1)
  {
    if a == "" {
      assert a + b == b && Plains(a) + Scan(Waiting(b)).0 == Scan(Waiting(b)).0;
    } else {
      OrdinaryStep(a, b);
      TailHasNoOpener(a, b);
      ScanLead(a[1..], b);
      PlainsCons(a, Scan(Waiting(b)).0);
    }
  }

  lemma OrdinaryStep(a: string, b: string)
    requires a != "" && OPEN <= b && !At(a + b, OPEN, 0)
    ensures Step(Waiting(a + b)) == Cut([Plain(a[0])], Waiting(a[1..] + b))
  {
    var s := a + b;
    assert s[0] == a[0] && s[1..] == a[1..] + b;
    assert s[0..|OPEN|] == s[..|OPEN|];
  }

  lemma TailHasNoOpener(a: string, b: string)
    requires a != ""
    requires forall k :: 0 <= k < |a| ==> !At(a + b, OPEN, k)
    ensures forall k :: 0 <= k < |a| - 1 ==> !At(a[1..] + b, OPEN, k)
  {
    assert (a + b)[1..] == a[1..] + b;
    forall k | 0 <= k < |a| - 1
      ensures !At(a[1..] + b, OPEN, k)
    {
      AtTail(a + b, OPEN, k);
    }
  }

  /** A text without any opener is shown whole, if held back in part. */
  lemma {:induction false} ScanNoOpener(p: Parsers, s: string)
    requires forall k :: !At(s, OPEN, k)
    ensures var r := Scan(Waiting(s));
            Shown(r) == s && Calls(p, r.0) == []
  {
    match Step(Waiting(s)) {
      case Stop =>
      case Cut(segs, next) =>
        assert !At(s, OPEN, 0);
        assert segs == [Plain(s[0])] && next == Waiting(s[1..]);
        NoOpenerInTail(s);
        ScanNoOpener(p, s[1..]);
        ShownCons(p, s[0], Scan(next));
        assert s == [s[0]] + s[1..];
    }
  }

  lemma NoOpenerInTail(s: string)
    requires s != "" && forall k :: !At(s, OPEN, k)
    ensures forall k :: !At(s[1..], OPEN, k)
  {
    forall k: nat
      ensures !At(s[1..], OPEN, k)
    {
      AtTail(s, OPEN, k);
    }
  }

  lemma ShownCons(p: Parsers, c: char, r: (seq<Segment>, State))
    ensures Shown(([Plain(c)] + r.0, r.1)) == [c] + Shown(r)
    ensures Calls(p, [Plain(c)] + r.0) == Calls(p, r.0)
  {
    assert ([Plain(c)] + r.0)[1..] == r.0;
  }

  /** Ordinary text in front of a scan shows up in front of its output. */
  lemma ShownLead(p: Parsers, lead: string, segs: seq<Segment>, r: (seq<Segment>, State))
    ensures Shown((Plains(lead) + (segs + r.0), r.1)) == lead + (Visible(segs) + Shown(r))
    ensures Calls(p, Plains(lead) + (segs + r.0)) == Calls(p, segs) + Calls(p, r.0)
  {
    PlainsShown(p, lead);
    VisibleConcat(Plains(lead), segs + r.0);
    VisibleConcat(segs, r.0);
    CallsConcat(p, Plains(lead), segs + r.0);
    CallsConcat(p, segs, r.0);
    RegroupFour(lead, Visible(segs), Visible(r.0), r.1.pending);
  }

  lemma ClassifyTag(s: string, j: int)
    requires OPEN <= s && |s| > |OPEN| && IsTagBoundary(s[|OPEN|]) && 0 <= j == Index(s, ">")
    ensures Classify(s) == if EndsWith(s[..j + 1], "/>") then Single(j + 1) else Opening(j + 1)
  {
  }

  /** Both forms read the opening tag alike. */
  lemma ReadTag(f: Piece, s: string)
    requires !f.NoOpener? && OPEN <= s && |s| > |OPEN| && IsTagBoundary(s[|OPEN|])
    requires var j := Index(s, ">"); 0 <= j < |s| && f == FindBehind(f.i, s[..j + 1], s[j + 1..])
    ensures |f.tag| <= |s| && f.tag == s[..|f.tag|] && s != "" && s[0] == '<'
    ensures Classify(s) == (if f.Closed? then Single(|f.tag|) else Opening(|f.tag|))
    ensures f.Closed? ==> f.rest == s[|f.tag|..]
  {
    ClassifyTag(s, Index(s, ">"));
    ReadAlike(f, s, Index(s, ">"));
  }

  lemma ReadAlike(f: Piece, s: string, j: int)
    requires 0 <= j < |s| && !f.NoOpener? && f == FindBehind(f.i, s[..j + 1], s[j + 1..])
    ensures |f.tag| == j + 1 && (f.Closed? <==> EndsWith(s[..j + 1], "/>"))
    ensures f.Closed? ==> f.rest == s[j + 1..]
    ensures !f.Closed? ==>
              var k := Index(s[j + 1..], CLOSE);
              if f.Whole? then 0 <= k && f.inner == s[j + 1..][..k] && f.rest == s[j + 1..][k + |CLOSE|..] else k < 0
  {
  }

  lemma StepAtTag(f: Piece, s: string)
    requires !f.NoOpener? && OPEN <= s && |s| > |OPEN| && IsTagBoundary(s[|OPEN|])
    requires var j := Index(s, ">"); 0 <= j < |s| && f == FindBehind(f.i, s[..j + 1], s[j + 1..])
    ensures |f.tag| <= |s|
    ensures Step(Waiting(s)) == if f.Closed? then Cut([Element(f.tag)], Waiting(f.rest))
                                else Cut([], State(s[|f.tag|..], true, f.tag))
  {
    ReadTag(f, s);
  }

  lemma StepAtFound(i: nat, s: string)
    requires OPEN <= s
    requires var f := FindAt(i, s); f.Closed? || f.Whole? || f.CutBlock?
    ensures var f := FindAt(i, s);
            && |f.tag| <= |s|
            && Step(Waiting(s)) == if f.Closed? then Cut([Element(f.tag)], Waiting(f.rest))
                                   else Cut([], State(s[|f.tag|..], true, f.tag))
  {
    StepAtTag(FindAt(i, s), s);
  }

  /** The first turn of the stream at the opener the batch form found. */
  lemma StepAtOpener(search: string)
    requires var f := Find(search); f.Closed? || f.Whole? || f.CutBlock?
    ensures var f := Find(search);
            && |f.tag| <= |search[f.i..]|
            && Step(Waiting(search[f.i..])) ==
               if f.Closed? then Cut([Element(f.tag)], Waiting(f.rest))
               else Cut([], State(search[f.i..][|f.tag|..], true, f.tag))
  {
    AtIsPrefix(search, OPEN, Index(search, OPEN));
    StepAtFound(Index(search, OPEN), search[Index(search, OPEN)..]);
  }

  lemma ClosesAt(i: nat, s: string)
    requires OPEN <= s && (FindAt(i, s).Whole? || FindAt(i, s).CutBlock?)
    ensures var f := FindAt(i, s);
            && |f.tag| <= |s|
            && var body := s[|f.tag|..];
               var k := Index(body, CLOSE);
               if f.Whole? then 0 <= k && f.inner == body[..k] && f.rest == body[k + |CLOSE|..] else k < 0
  {
    ReadCloser(FindAt(i, s), s);
  }

  /** Both forms look for the closing tag behind the opening tag. */
  lemma FindCloses(search: string)
    requires Find(search).Whole? || Find(search).CutBlock?
    ensures var f := Find(search);
            && |f.tag| <= |search[f.i..]|
            && var body := search[f.i..][|f.tag|..];
               var k := Index(body, CLOSE);
               if f.Whole? then 0 <= k && f.inner == body[..k] && f.rest == body[k + |CLOSE|..] else k < 0
  {
    AtIsPrefix(search, OPEN, Index(search, OPEN));
    ClosesAt(Index(search, OPEN), search[Index(search, OPEN)..]);
  }

  lemma ReadCloser(f: Piece, s: string)
    requires f.Whole? || f.CutBlock?
    requires var j := Index(s, ">"); 0 <= j < |s| && f == FindBehind(f.i, s[..j + 1], s[j + 1..])
    ensures |f.tag| <= |s|
    ensures var body := s[|f.tag|..];
            var k := Index(body, CLOSE);
            if f.Whole? then 0 <= k && f.inner == body[..k] && f.rest == body[k + |CLOSE|..] else k < 0
  {
    ReadAlike(f, s, Index(s, ">"));
  }

  lemma StepInside(body: string, tag: string, k: int)
    requires k == Index(body, CLOSE)
    ensures Step(State(body, true, tag)) ==
            if k < 0 then Stop else Cut([Block(tag, body[..k])], Waiting(body[k + |CLOSE|..]))
  {
  }

  lemma StepAtCloser(search: string)
    requires Find(search).Whole? || Find(search).CutBlock?
    requires var f := Find(search); |f.tag| <= |search[f.i..]|
    ensures var f := Find(search);
            Step(State(search[f.i..][|f.tag|..], true, f.tag)) ==
              if f.Whole? then Cut([Block(f.tag, f.inner)], Waiting(f.rest)) else Stop
  {
    var f := Find(search);
    FindCloses(search);
    StepInside(search[f.i..][|f.tag|..], f.tag, Index(search[f.i..][|f.tag|..], CLOSE));
  }

  /** The stream reads a closed tag or a whole block exactly where the batch form does. */
  lemma ScanPiece(search: string, seg: Segment, rest: string)
    requires var f := Find(search);
             || (f.Closed? && seg == Element(f.tag) && rest == f.rest)
             || (f.Whole? && seg == Block(f.tag, f.inner) && rest == f.rest)
    ensures Scan(Waiting(search[Find(search).i..])) == ([seg] + Scan(Waiting(rest)).0, Scan(Waiting(rest)).1)
  {
    var f := Find(search);
    StepAtOpener(search);
    if f.Whole? {
      StepAtCloser(search);
      ScanTwoSteps(Waiting(search[f.i..]), State(search[f.i..][|f.tag|..], true, f.tag), seg, Waiting(rest));
    }
  }

  lemma ScanTwoSteps(st: State, mid: State, seg: Segment, last: State)
    requires Step(st) == Cut([], mid) && Step(mid) == Cut([seg], last)
    ensures Scan(st) == ([seg] + Scan(last).0, Scan(last).1)
  {
    assert [] + ([seg] + Scan(last).0) == [seg] + Scan(last).0;
  }

  lemma SearchLead(search: string)
    requires !Find(search).NoOpener?
    ensures var i := Find(search).i;
            var tail := Scan(Waiting(search[i..]));
            Scan(Waiting(search)) == (Plains(search[..i]) + tail.0, tail.1)
  {
    var i := Find(search).i;
    assert search == search[..i] + search[i..];
    IndexFirst(search, OPEN);
    ScanLead(search[..i], search[i..]);
  }

  // The condition under which the two forms agree: the guards of the two
  // unterminated branches, the first only when it drops no text.
  predicate Terminated(text: string) {
    EndingOf(text) == Clean || EndingOf(text) == InTag(0)
  }

  lemma SamePrefix(a: string, b: string, c: string)
    ensures a + b == a + c <==> b == c
  {
    if a + b == a + c {
      assert b == (a + b)[|a|..] && c == (a + c)[|a|..];
    }
  }

  /** The whole text in one piece: calls always agree, text exactly when terminated. */
  lemma {:induction false} BatchAgreement(p: Parsers, text: string)
    ensures Calls(p, Scan(Waiting(text)).0) == Extract(p, text).1
    ensures Shown(Scan(Waiting(text))) == Extract(p, text).0 <==> Terminated(text)
    decreases |text|
  {
    match Find(text) {
      case NoOpener =>
        IndexFirst(text, OPEN);
        ScanNoOpener(p, text);
      case NotATag(i) => AgreeNotATag(p, text);
      case CutTag(i) => AgreeCutTag(p, text);
      case CutBlock(i, tag) => AgreeCutBlock(p, text);
      case Closed(i, tag, rest) =>
        BatchAgreement(p, rest);
        AgreePiece(p, text, Element(tag), rest);
      case Whole(i, tag, inner, rest) =>
        BatchAgreement(p, rest);
        AgreePiece(p, text, Block(tag, inner), rest);
    }
  }

  lemma AgreePiece(p: Parsers, text: string, seg: Segment, rest: string)
    requires var f := Find(text);
             || (f.Closed? && seg == Element(f.tag) && rest == f.rest)
             || (f.Whole? && seg == Block(f.tag, f.inner) && rest == f.rest)
    requires Calls(p, Scan(Waiting(rest)).0) == Extract(p, rest).1
    requires Shown(Scan(Waiting(rest))) == Extract(p, rest).0 <==> Terminated(rest)
    ensures Calls(p, Scan(Waiting(text)).0) == Extract(p, text).1
    ensures Shown(Scan(Waiting(text))) == Extract(p, text).0 <==> Terminated(text)
  {
    StreamPiece(p, text, seg, rest);
    SamePrefix(text[..Find(text).i], Shown(Scan(Waiting(rest))), Extract(p, rest).0);
  }

  lemma StreamPiece(p: Parsers, text: string, seg: Segment, rest: string)
    requires var f := Find(text);
             || (f.Closed? && seg == Element(f.tag) && rest == f.rest)
             || (f.Whole? && seg == Block(f.tag, f.inner) && rest == f.rest)
    ensures Shown(Scan(Waiting(text))) == text[..Find(text).i] + Shown(Scan(Waiting(rest)))
    ensures Calls(p, Scan(Waiting(text)).0) == CallsOf(p, seg) + Calls(p, Scan(Waiting(rest)).0)
  {
    SearchLead(text);
    ScanPiece(text, seg, rest);
    LeadThenSegment(p, text[..Find(text).i], seg, Scan(Waiting(rest)));
  }

  lemma LeadThenSegment(p: Parsers, lead: string, seg: Segment, r: (seq<Segment>, State))
    ensures Shown((Plains(lead) + ([seg] + r.0), r.1)) ==
            lead + (VisibleOf(seg) + Shown(r))
    ensures !seg.Plain? ==> Shown((Plains(lead) + ([seg] + r.0), r.1)) == lead + Shown(r)
    ensures Calls(p, Plains(lead) + ([seg] + r.0)) == CallsOf(p, seg) + Calls(p, r.0)
  {
    ShownLead(p, lead, [seg], r);
    OneSegment(p, seg);
    assert "" + Shown(r) == Shown(r);
  }

  lemma LeadThenStop(p: Parsers, lead: string, st: State)
    ensures Shown((Plains(lead) + [], st)) == lead + st.pending
    ensures Calls(p, Plains(lead) + []) == []
  {
    PlainsShown(p, lead);
    assert Plains(lead) + [] == Plains(lead);
  }

  lemma OneSegment(p: Parsers, seg: Segment)
    ensures Calls(p, [seg]) == CallsOf(p, seg)
    ensures Visible([seg]) == VisibleOf(seg)
  {
    assert [seg][1..] == [];
    assert CallsOf(p, seg) + [] == CallsOf(p, seg);
  }

  lemma {:induction false} AgreeNotATag(p: Parsers, text: string)
    requires Find(text).NotATag?
    ensures Calls(p, Scan(Waiting(text)).0) == Extract(p, text).1
    ensures Shown(Scan(Waiting(text))) == Extract(p, text).0 <==> Terminated(text)
    decreases |text|, 0
  {
    var i := Find(text).i;
    if text[i..] == OPEN {
      StreamStops(p, text);
      BareOpenerAtEnd(p, text);
      assert text == text[..i] + text[i..];
    } else {
      BatchAgreement(p, text[i + 1..]);
      StreamNotATag(p, text);
      SamePrefix(text[..i + 1], Shown(Scan(Waiting(text[i + 1..]))), Extract(p, text[i + 1..]).0);
    }
  }

  /** An opener that never completes stays in the held text, behind its lead. */
  lemma StreamStops(p: Parsers, text: string)
    requires var f := Find(text); f.CutTag? || (f.NotATag? && text[f.i..] == OPEN)
    ensures var r := Scan(Waiting(text));
            Shown(r) == text[..Find(text).i] + text[Find(text).i..] && Calls(p, r.0) == []
  {
    var s := text[Find(text).i..];
    SearchLead(text);
    assert OPEN <= s && s[|OPEN|..] == text[Find(text).i + |OPEN|..];
    assert Step(Waiting(s)) == Stop;
    LeadThenStop(p, text[..Find(text).i], Waiting(s));
  }

  lemma StreamNotATag(p: Parsers, text: string)
    requires Find(text).NotATag? && text[Find(text).i..] != OPEN
    ensures var i := Find(text).i;
            var r := Scan(Waiting(text));
            var tail := Scan(Waiting(text[i + 1..]));
            Shown(r) == text[..i + 1] + Shown(tail) && Calls(p, r.0) == Calls(p, tail.0)
  {
    var i := Find(text).i;
    var tail := Scan(Waiting(text[i + 1..]));
    SearchLead(text);
    StepNotATag(text);
    LeadThenSegment(p, text[..i], Plain('<'), tail);
    RegroupThree(text[..i], ['<'], Shown(tail));
    assert [] + Calls(p, tail.0) == Calls(p, tail.0);
  }

  lemma StepNotATag(text: string)
    requires Find(text).NotATag? && text[Find(text).i..] != OPEN
    ensures var i := Find(text).i;
            && text[..i + 1] == text[..i] + ['<']
            && Step(Waiting(text[i..])) == Cut([Plain('<')], Waiting(text[i + 1..]))
  {
    var i := Find(text).i;
    var s := text[i..];
    assert OPEN <= s && s[|OPEN|..] == text[i + |OPEN|..];
    assert s[1..] == text[i + 1..] && s[0] == '<';
  }

  lemma BareOpenerAtEnd(p: Parsers, text: string)
    requires Find(text).NotATag? && text[Find(text).i..] == OPEN
    ensures Extract(p, text) == (text, []) && EndingOf(text) == Clean
  {
    var i := Find(text).i;
    var rest := text[i + 1..];
    assert |rest| < |OPEN|;
    assert Find(rest) == NoOpener;
    assert text == text[..i + 1] + rest;
  }

  lemma AgreeCutTag(p: Parsers, text: string)
    requires Find(text).CutTag?
    ensures Calls(p, Scan(Waiting(text)).0) == Extract(p, text).1
    ensures Shown(Scan(Waiting(text))) == Extract(p, text).0 <==> Terminated(text)
  {
    StreamStops(p, text);
  }

  lemma StreamCutBlock(p: Parsers, text: string)
    requires Find(text).CutBlock?
    ensures var f := Find(text);
            var r := Scan(Waiting(text));
            && Shown(r) == text[..f.i] + text[f.i..][|f.tag|..]
            && Calls(p, r.0) == []
  {
    var CutBlock(i, tag) := Find(text);
    var inside := State(text[i..][|tag|..], true, tag);
    SearchLead(text);
    StepAtOpener(text);
    StepAtCloser(text);
    assert [] + Scan(inside).0 == [];
    LeadThenStop(p, text[..i], inside);
  }

  lemma AgreeCutBlock(p: Parsers, text: string)
    requires Find(text).CutBlock?
    ensures Calls(p, Scan(Waiting(text)).0) == Extract(p, text).1
    ensures Shown(Scan(Waiting(text))) != Extract(p, text).0
  {
    var CutBlock(i, tag) := Find(text);
    StreamCutBlock(p, text);
    PrefixSplits(text[i..], tag);
    LeadIsNotTheTag(text);
    LengthsDiffer(text[..i], tag, text[i..][|tag|..]);
  }

  lemma PrefixSplits(s: string, tag: string)
    requires tag <= s
    ensures s == tag + s[|tag|..]
  {
  }

  lemma LeadIsNotTheTag(text: string)
    requires Find(text).CutBlock?
    ensures text[..Find(text).i] != Find(text).tag
  {
    var CutBlock(i, tag) := Find(text);
    var s := text[i..];
    assert OPEN <= s;
    TagEndsAfterOpener(s, Index(s, ">"));
    assert |OPEN| <= i ==> text[..i][..|OPEN|] == text[0..|OPEN|];
    assert 0 < i ==> !At(text, OPEN, 0);
  }

  lemma LengthsDiffer(a: string, b: string, c: string)
    requires a != b
    ensures a + c != b + c
  {
    if |a| == |b| {
      assert (a + c)[..|a|] == a && (b + c)[..|b|] == b;
    }
  }

  /** Streaming in any chunks, then flushing, against one call of extractDotsCalls. */
  lemma StreamMatchesBatch(p: Parsers, chunks: seq<string>)
    ensures var fed := FeedAll(p, IDLE, chunks);
            var (cleaned, calls) := Extract(p, Join(chunks));
            && fed.calls == calls
            && (fed.emit + fed.state.pending == cleaned <==> Terminated(Join(chunks)))
  {
    ChunkIndependence(p, IDLE, chunks);
    assert Extend(IDLE, Join(chunks)) == Waiting(Join(chunks));
    BatchAgreement(p, Join(chunks));
  }

  /** An unterminated block: the stream forgets the opening tag, the batch form forgets the lead. */
  lemma UnterminatedBlockDiffers(p: Parsers, text: string)
    requires text == "a<dots_function_call>b"
    ensures Shown(Scan(Waiting(text))) == "ab" && Extract(p, text).0 == "<dots_function_call>b"
  {
    SampleFound(text);
    SampleSlices(text);
    StreamCutBlock(p, text);
  }

  lemma SampleSlices(text: string)
    requires text == "a<dots_function_call>b"
    ensures text[1..] == "<dots_function_call>b" && text[..1] + text[1..][|OPEN| + 1..] == "ab"
  {
  }

  lemma SampleFound(text: string)
    requires text == "a<dots_function_call>b"
    ensures Find(text) == CutBlock(1, "<dots_function_call>")
  {
    SampleOpener(text);
    FirstIs(text[1..], '>', |OPEN|);
    assert text[1..][..|OPEN| + 1] == "<dots_function_call>";
    assert |text[1..][|OPEN| + 1..]| < |CLOSE|;
  }

  lemma SampleOpener(text: string)
    requires text == "a<dots_function_call>b"
    ensures Index(text, OPEN) == 1 && text[1 + |OPEN|..] != "" && text[1 + |OPEN|..][0] == '>'
  {
    assert text == "a" + OPEN + ">b";
    OpenerSecond("a", ">b", text);
  }

  lemma OpenerSecond(lead: string, rest: string, text: string)
    requires |lead| == 1 && lead[0] != '<' && text == lead + OPEN + rest
    ensures Index(text, OPEN) == 1 && text[1 + |OPEN|..] == rest
  {
    assert text[1..1 + |OPEN|] == OPEN;
    assert text[0..|OPEN|][0] == lead[0] && OPEN[0] == '<';
    IndexIs(text, OPEN, 1);
  }

  lemma FirstIs(s: string, c: char, n: nat)
    requires n < |s| && s[n] == c && c !in s[..n]
    ensures Index(s, [c]) == n
  {
    IndexOfChar(s, c);
    assert forall k :: 0 <= k < n ==> s[..n][k] == s[k];
  }

  // ----- the state machine -----

  /** The output still to come from a state, behind what has been produced already. */
  function Pending(p: Parsers, emit: string, calls: seq<Call>, st: State): Fed {
    Fed(emit + Visible(Scan(st).0), calls + Calls(p, Scan(st).0), Scan(st).1)
  }

  lemma EmitLead(p: Parsers, emit: string, calls: seq<Call>, lead: string, rest: string)
    requires '<' !in lead
    ensures Pending(p, emit, calls, Waiting(lead + rest)) == Pending(p, emit + lead, calls, Waiting(rest))
  {
    var segs := Scan(Waiting(rest)).0;
    ScanSkipsText(lead, rest);
    PlainsShown(p, lead);
    VisibleConcat(Plains(lead), segs);
    CallsConcat(p, Plains(lead), segs);
    RegroupThree(emit, lead, Visible(segs));
    assert [] + Calls(p, segs) == Calls(p, segs);
  }

  lemma TakeStep(p: Parsers, emit: string, calls: seq<Call>, st: State)
    ensures Step(st).Stop? ==> Pending(p, emit, calls, st) == Fed(emit, calls, st)
    ensures Step(st).Cut? ==>
              var Cut(segs, next) := Step(st);
              Pending(p, emit, calls, st) == Pending(p, emit + Visible(segs), calls + Calls(p, segs), next)
  {
    match Step(st) {
      case Stop =>
        assert emit + "" == emit && calls + [] == calls;
      case Cut(segs, next) =>
        var rest := Scan(next).0;
        VisibleConcat(segs, rest);
        CallsConcat(p, segs, rest);
        RegroupThree(emit, Visible(segs), Visible(rest));
        Associative(calls, Calls(p, segs), Calls(p, rest));
    }
  }

  /** What one decided '<' adds to the output. */
  lemma StepAtBracket(p: Parsers, emit: string, calls: seq<Call>, rest: string)
    requires rest != "" && rest[0] == '<'
    ensures Pending(p, emit, calls, Waiting(rest)) ==
            match Classify(rest)
            case Incomplete => Fed(emit, calls, Waiting(rest))
            case Ordinary => Pending(p, emit + "<", calls, Waiting(rest[1..]))
            case Single(n) => Pending(p, emit, calls + CallsOf(p, Element(rest[..n])), Waiting(rest[n..]))
            case Opening(n) => Pending(p, emit, calls, State(rest[n..], true, rest[..n]))
  {
    TakeStep(p, emit, calls, Waiting(rest));
    assert emit + "" == emit && calls + [] == calls;
    match Classify(rest) {
      case Ordinary => OneSegment(p, Plain('<'));
      case Single(n) => OneSegment(p, Element(rest[..n]));
      case _ =>
    }
  }

  lemma StepAtNextBracket(p: Parsers, emit: string, calls: seq<Call>, text: string, i: nat)
    requires i < |text| && text[i] == '<' && '<' !in text[..i]
    ensures var rest := text[i..];
            Pending(p, emit, calls, Waiting(text)) ==
            match Classify(rest)
            case Incomplete => Fed(emit + text[..i], calls, Waiting(rest))
            case Ordinary => Pending(p, emit + text[..i] + "<", calls, Waiting(rest[1..]))
            case Single(n) =>
              Pending(p, emit + text[..i], calls + CallsOf(p, Element(rest[..n])), Waiting(rest[n..]))
            case Opening(n) => Pending(p, emit + text[..i], calls, State(rest[n..], true, rest[..n]))
  {
    assert text == text[..i] + text[i..];
    EmitLead(p, emit, calls, text[..i], text[i..]);
    StepAtBracket(p, emit + text[..i], calls, text[i..]);
  }

  lemma AppendNothing(s: string)
    ensures s + "" == s
  {
  }

  lemma StepInBlock(p: Parsers, emit: string, calls: seq<Call>, st: State)
    requires st.inTag
    ensures Pending(p, emit, calls, st) ==
            var k := Index(st.pending, CLOSE);
            if k < 0 then Fed(emit, calls, st)
            else Pending(p, emit, calls + p.block(st.pending[..k], st.openTag), Waiting(st.pending[k + |CLOSE|..]))
  {
    var k := Index(st.pending, CLOSE);
    TakeStep(p, emit, calls, st);
    if k >= 0 {
      CutBlockStep(st);
      OneSegment(p, Block(st.openTag, st.pending[..k]));
      AppendNothing(emit);
    }
  }

  lemma CutBlockStep(st: State)
    requires st.inTag && Index(st.pending, CLOSE) >= 0
    ensures var k := Index(st.pending, CLOSE);
            Step(st) == Cut([Block(st.openTag, st.pending[..k])], Waiting(st.pending[k + |CLOSE|..]))
  {
  }

  lemma EmitAll(p: Parsers, emit: string, calls: seq<Call>, text: string)
    requires '<' !in text
    ensures Pending(p, emit, calls, Waiting(text)) == Fed(emit + text, calls, IDLE)
  {
    assert text + "" == text;
    EmitLead(p, emit, calls, text, "");
    TakeStep(p, emit + text, calls, IDLE);
  }

  lemma NothingEmitted(p: Parsers, st: State)
    ensures Pending(p, "", [], st) == Fed(Visible(Scan(st).0), Calls(p, Scan(st).0), Scan(st).1)
  {
    var segs := Scan(st).0;
    assert "" + Visible(segs) == Visible(segs) && [] + Calls(p, segs) == Calls(p, segs);
  }

  class FieldState {
    var pending: string
    var inTag: bool
    var openTag: string

    function Fields(): State
      reads this
    {
      State(pending, inTag, openTag)
    }

    predicate Valid()
      reads this
    {
      inTag || openTag == ""
    }

    constructor ()
      ensures Valid() && Fields() == IDLE
    {
      pending, inTag, openTag := "", false, "";
    }

    /** feed: the text now safe to emit and the calls completed by `text`. */
    method Feed(p: Parsers, text: string) returns (emit: string, calls: seq<Call>)
      requires Valid()
      modifies this
      ensures Valid() && Settled(Fields())
      ensures Fed(emit, calls, Fields()) == Consume(p, old(Fields()), text)
    {
      ghost var start := Extend(Fields(), text);
      ScanSettles(start);
      pending := pending + text;
      emit, calls := "", [];
      NothingEmitted(p, start);
      while true
        invariant Valid()
        invariant Pending(p, emit, calls, Fields()) == Pending(p, "", [], start)
        decreases |pending|
      {
        if !inTag {
          var i := Index(pending, "<");
          IndexOfChar(pending, '<');
          if i < 0 {
            EmitAll(p, emit, calls, pending);
            emit := emit + pending;
            pending := "";
            return;
          }
          StepAtNextBracket(p, emit, calls, pending, i);
          emit := emit + pending[..i];
          var rest := pending[i..];
          match Classify(rest) {
            case Incomplete =>
              pending := rest;
              return;
            case Ordinary =>
              emit := emit + "<";
              pending := rest[1..];
            case Single(n) =>
              pending := rest[n..];
              calls := calls + CallsOf(p, Element(rest[..n]));
            case Opening(n) =>
              inTag, openTag := true, rest[..n];
              pending := rest[n..];
          }
        } else {
          StepInBlock(p, emit, calls, Fields());
          var k := Index(pending, CLOSE);
          if k < 0 {
            return;
          }
          var inner := pending[..k];
          pending := pending[k + |CLOSE|..];
          inTag := false;
          calls := calls + p.block(inner, openTag);
          openTag := "";
        }
      }
    }

    /** FlushStream for one field: only the held text is emitted. */
    method Flush() returns (text: string)
      requires Valid()
      modifies this`pending
      ensures Valid() && text == old(pending) && pending == ""
    {
      text := pending;
      pending := "";
    }
  }
}
