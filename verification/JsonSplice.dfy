/**
 The splices of jsonspan.go, and what they do to the printed tree: replacing,
 inserting and appending in the bytes is an update of the tree that leaves
 every other byte where it was.
 */
module JsonSplice {
  import opened Text
  import opened JsonScan
  import opened JsonTree

  /** body[start..end] replaced by `s`. */
  function Splice(b: string, start: nat, end: nat, s: string): string
    requires start <= end <= |b|
  {
    b[..start] + s + b[end..]
  }

  function ReplaceJSONValue(b: string, span: Span, value: string): string
    requires span.start <= span.end <= |b|
  {
    Splice(b, span.start, span.end, value)
  }

  /** The offset behind the last character before `n` that is not whitespace. */
  function CutBack(b: string, floor: nat, n: nat): (cut: nat)
    requires n <= |b|
    ensures cut <= n
  {
    if n > floor && IsSpace(b[n - 1]) then CutBack(b, floor, n - 1) else n
  }

  method CutWhitespace(body: string, floor: nat, end: nat) returns (cut: nat)
    requires end <= |body|
    ensures cut == CutBack(body, floor, end)
  {
    cut := end;
    while cut > floor && IsSpace(body[cut - 1])
      invariant cut <= end
      invariant CutBack(body, floor, cut) == CutBack(body, floor, end)
    {
      cut := cut - 1;
    }
  }

  function MemberText(key: string, value: string): string { "\"" + key + "\":" + value }

  /** insertJSONMember: a member behind the last one, before the whitespace at the closing brace. */
  function InsertJSONMember(b: string, objEnd: nat, key: string, value: string): string
    requires objEnd <= |b|
  {
    var cut := CutBack(b, 0, objEnd);
    Splice(b, cut, cut, (if cut > 0 && b[cut - 1] != '{' then "," else "") + MemberText(key, value))
  }

  // ----- string lemmas -----

  lemma SpliceMiddle(l: string, m: string, r: string, i: nat, j: nat, s: string)
    requires i <= j <= |m|
    ensures Splice(l + m + r, |l| + i, |l| + j, s) == l + Splice(m, i, j, s) + r
  {
    var b := l + m + r;
    assert b[..|l| + i] == l + m[..i];
    assert b[|l| + j..] == m[j..] + r;
  }

  lemma SpliceAll(m: string, s: string)
    ensures Splice(m, 0, |m|, s) == s
  {
  }

  lemma SpliceIn(l: string, r: string, s: string)
    ensures Splice(l + r, |l|, |l|, s) == l + s + r
  {
  }

  lemma Regroup(a: string, b: string, c: string)
    ensures a + (b + c) == a + b + c
  {
  }

  // ----- sizes -----

  lemma PrintSize(v: Value)
    ensures |Print(v)| == Size(v)
  {
    LiesWhole(Print(v));
    PrintHolds(Print(v), v, 0);
  }

  lemma KeyPartSize(m: Entry)
    ensures |KeyPart(m)| == KeySize(m)
  {
  }

  // ----- replacing the value of a member -----

  function SetValue(ms: seq<Entry>, k: nat, v: Value): seq<Entry>
    requires k < |ms|
  {
    ms[k := ms[k].(val := v)]
  }

  function EntryText(m: Entry): string { KeyPart(m) + Print(m.val) + m.post }

  /** The printed members before the value of member `k`, and behind it. */
  function Left(ms: seq<Entry>, k: nat): string
    requires k < |ms|
  {
    if k == 0 then KeyPart(ms[0]) else EntryText(ms[0]) + "," + Left(ms[1..], k - 1)
  }

  function Right(ms: seq<Entry>, k: nat): string
    requires k < |ms|
  {
    if k == 0 then ms[0].post + (if |ms| == 1 then "" else "," + PrintEntries(ms[1..])) else Right(ms[1..], k - 1)
  }

  lemma {:induction false} PrintAround(ms: seq<Entry>, k: nat, v: Value)
    requires k < |ms|
    ensures PrintEntries(SetValue(ms, k, v)) == Left(ms, k) + Print(v) + Right(ms, k)
  {
    if k == 0 {
      PrintAroundFirst(ms, v);
    } else {
      PrintAround(ms[1..], k - 1, v);
      PrintLater(ms, k, v);
      AroundLater(ms, k);
      RegroupFive(EntryText(ms[0]), ",", Left(ms[1..], k - 1), Print(v), Right(ms[1..], k - 1));
    }
  }

  lemma PrintLater(ms: seq<Entry>, k: nat, v: Value)
    requires 0 < k < |ms|
    ensures PrintEntries(SetValue(ms, k, v)) == EntryText(ms[0]) + ("," + PrintEntries(SetValue(ms[1..], k - 1, v)))
  {
    PrintFirst(SetValue(ms, k, v));
    assert SetValue(ms, k, v)[1..] == SetValue(ms[1..], k - 1, v);
  }

  lemma AroundLater(ms: seq<Entry>, k: nat)
    requires 0 < k < |ms|
    ensures Left(ms, k) == EntryText(ms[0]) + "," + Left(ms[1..], k - 1) && Right(ms, k) == Right(ms[1..], k - 1)
  {
  }

  lemma PrintFirst(ms: seq<Entry>)
    requires |ms| > 1
    ensures PrintEntries(ms) == EntryText(ms[0]) + ("," + PrintEntries(ms[1..]))
  {
  }

  lemma PrintAroundFirst(ms: seq<Entry>, v: Value)
    requires ms != []
    ensures PrintEntries(SetValue(ms, 0, v)) == Left(ms, 0) + Print(v) + Right(ms, 0)
  {
    var now := SetValue(ms, 0, v);
    assert now[1..] == ms[1..] && KeyPart(now[0]) == KeyPart(ms[0]);
    RegroupFour(KeyPart(ms[0]), Print(v), ms[0].post, if |ms| == 1 then "" else "," + PrintEntries(ms[1..]));
  }

  lemma RegroupFour(a: string, b: string, c: string, d: string)
    ensures a + b + c + d == a + b + (c + d)
  {
  }

  lemma RegroupFive(a: string, b: string, c: string, d: string, e: string)
    ensures a + (b + (c + d + e)) == (a + b + c) + d + e
  {
  }

  lemma {:induction false} SpanAround(ms: seq<Entry>, i: nat, k: nat)
    requires k < |ms|
    ensures SpansOf(ms, i)[k] == Span(ms[k].key, i + |Left(ms, k)|, i + |Left(ms, k)| + |Print(ms[k].val)|)
  {
    KeyPartSize(ms[0]);
    PrintSize(ms[0].val);
    if k > 0 {
      SpanAround(ms[1..], i + EntrySize(ms[0]) + 1, k - 1);
    }
  }

  function SetDoc(d: Doc, k: nat, v: Value): Doc
    requires k < |d.members|
  {
    d.(members := SetValue(d.members, k, v))
  }

  function DocLeft(d: Doc, k: nat): string
    requires k < |d.members|
  {
    d.lead + "{" + Left(d.members, k)
  }

  function DocRight(d: Doc, k: nat): string
    requires k < |d.members|
  {
    Right(d.members, k) + "}" + d.trail
  }

  lemma DocAround(d: Doc, k: nat, v: Value)
    requires k < |d.members|
    ensures PrintDoc(SetDoc(d, k, v)) == DocLeft(d, k) + Print(v) + DocRight(d, k)
  {
    PrintAround(d.members, k, v);
    RegroupDoc(d.lead, "{", Left(d.members, k), Print(v), Right(d.members, k), "}", d.trail);
  }

  lemma RegroupDoc(a: string, b: string, c: string, d: string, e: string, f: string, g: string)
    ensures a + (b + (c + d + e) + f) + g == (a + b + c) + d + (e + f + g)
  {
  }

  /** The span the scanner reports for member `k` of a printed body. */
  function DocSpan(d: Doc, k: nat): Span
    requires k < |d.members|
  {
    SpansOf(d.members, |d.lead| + 1)[k]
  }

  lemma DocSpanIs(d: Doc, k: nat)
    requires k < |d.members|
    ensures DocSpan(d, k) == Span(d.members[k].key, |DocLeft(d, k)|, |DocLeft(d, k)| + |Print(d.members[k].val)|)
    ensures PrintDoc(d) == DocLeft(d, k) + Print(d.members[k].val) + DocRight(d, k)
  {
    SpanAround(d.members, |d.lead| + 1, k);
    DocAround(d, k, d.members[k].val);
    assert SetValue(d.members, k, d.members[k].val) == d.members;
  }

  /** An edit inside the value of member `k` is that edit on the value's own text. */
  lemma {:induction false} SpliceValue(d: Doc, k: nat, i: nat, j: nat, s: string, v: Value)
    requires k < |d.members| && i <= j <= |Print(d.members[k].val)|
    requires Print(v) == Splice(Print(d.members[k].val), i, j, s)
    ensures var span := DocSpan(d, k);
            && span.start + j <= |PrintDoc(d)|
            && Splice(PrintDoc(d), span.start + i, span.start + j, s) == PrintDoc(SetDoc(d, k, v))
  {
    var l, m, r, start := DocLeft(d, k), Print(d.members[k].val), DocRight(d, k), DocSpan(d, k).start;
    DocAround(d, k, v);
    DocSpanIs(d, k);
    SpliceMoved(PrintDoc(d), l, m, r, start + i, start + j, i, j, s, Print(v), PrintDoc(SetDoc(d, k, v)));
  }

  lemma SpliceMoved(b: string, l: string, m: string, r: string, from: nat, to: nat, i: nat, j: nat, s: string,
                    n: string, after: string)
    requires b == l + m + r && from == |l| + i && to == |l| + j && i <= j <= |m|
    requires n == Splice(m, i, j, s) && after == l + n + r
    ensures to <= |b| && Splice(b, from, to, s) == after
  {
    SpliceMiddle(l, m, r, i, j, s);
  }

  /** Replacing a value in the bytes replaces it in the tree and nothing else. */
  lemma ReplaceLaw(d: Doc, k: nat, v: Value)
    requires k < |d.members|
    ensures var span := DocSpan(d, k);
            && span.start <= span.end <= |PrintDoc(d)|
            && ReplaceJSONValue(PrintDoc(d), span, Print(v)) == PrintDoc(SetDoc(d, k, v))
  {
    var l, r, span := DocLeft(d, k), DocRight(d, k), DocSpan(d, k);
    DocAround(d, k, v);
    DocSpanIs(d, k);
    SpliceWhole(PrintDoc(d), l, Print(d.members[k].val), r, span.start, span.end, Print(v), PrintDoc(SetDoc(d, k, v)));
  }

  lemma SpliceWhole(b: string, l: string, m: string, r: string, from: nat, to: nat, n: string, after: string)
    requires b == l + m + r && from == |l| && to == |l| + |m| && after == l + n + r
    ensures from <= to <= |b| && Splice(b, from, to, n) == after
  {
    SpliceMiddle(l, m, r, 0, |m|, n);
    SpliceAll(m, n);
  }

  // ----- comma-separated texts -----

  function Join(texts: seq<string>): string {
    if texts == [] then "" else texts[0] + (if |texts| == 1 then "" else "," + Join(texts[1..]))
  }

  lemma {:induction false} JoinAppend(a: seq<string>, b: seq<string>)
    requires a != [] && b != []
    ensures Join(a + b) == Join(a) + "," + Join(b)
  {
    assert (a + b)[1..] == a[1..] + b;
    if |a| == 1 {
      assert a[1..] + b == b;
      Regroup(a[0], ",", Join(b));
    } else {
      JoinAppend(a[1..], b);
      JoinRegroup(a[0], ",", Join(a[1..]), ",", Join(b));
    }
  }

  lemma JoinRegroup(a: string, b: string, c: string, d: string, e: string)
    ensures a + (b + (c + d + e)) == (a + (b + c)) + d + e
  {
  }

  /** Text added behind the last of the joined texts. */
  lemma {:induction false} JoinTail(texts: seq<string>, tail: string)
    requires texts != []
    ensures var n := |texts| - 1; Join(texts[n := texts[n] + tail]) == Join(texts) + tail
  {
    var n := |texts| - 1;
    var more := texts[n := texts[n] + tail];
    if n > 0 {
      assert more[1..] == texts[1..][n - 1 := texts[1..][n - 1] + tail];
      JoinTail(texts[1..], tail);
      TailRegroup(texts[0], ",", Join(texts[1..]), tail);
    }
  }

  lemma TailRegroup(a: string, b: string, c: string, d: string)
    ensures a + (b + (c + d)) == (a + (b + c)) + d
  {
  }

  function Map<T>(f: T -> string, xs: seq<T>): (texts: seq<string>)
    ensures |texts| == |xs|
    ensures forall k :: 0 <= k < |xs| ==> texts[k] == f(xs[k])
  {
    seq(|xs|, k requires 0 <= k < |xs| => f(xs[k]))
  }

  lemma MapConcat<T>(f: T -> string, xs: seq<T>, ys: seq<T>)
    ensures Map(f, xs + ys) == Map(f, xs) + Map(f, ys)
  {
  }

  /** Two lists whose texts differ by a tail on the last one. */
  lemma MapTail<T, U>(f: T -> string, xs: seq<T>, g: U -> string, ys: seq<U>, tail: string)
    requires xs != [] && |xs| == |ys|
    requires forall k :: 0 <= k < |xs| - 1 ==> f(xs[k]) == g(ys[k])
    requires f(xs[|xs| - 1]) == g(ys[|ys| - 1]) + tail
    ensures Join(Map(f, xs)) == Join(Map(g, ys)) + tail
  {
    var n := |xs| - 1;
    assert Map(f, xs) == Map(g, ys)[n := Map(g, ys)[n] + tail];
    JoinTail(Map(g, ys), tail);
  }

  function ElemText(e: Elem): string { e.pre + Print(e.val) + e.post }

  function EntryTexts(ms: seq<Entry>): (texts: seq<string>)
    ensures |texts| == |ms|
  {
    Map(EntryText, ms)
  }

  function ElemTexts(es: seq<Elem>): (texts: seq<string>)
    ensures |texts| == |es|
  {
    Map(ElemText, es)
  }

  lemma {:induction false} PrintEntriesJoin(ms: seq<Entry>)
    ensures PrintEntries(ms) == Join(EntryTexts(ms))
  {
    if ms != [] {
      assert EntryTexts(ms)[1..] == EntryTexts(ms[1..]);
      PrintEntriesJoin(ms[1..]);
    }
  }

  lemma {:induction false} PrintElemsJoin(es: seq<Elem>)
    ensures PrintElems(es) == Join(ElemTexts(es))
  {
    if es != [] {
      assert ElemTexts(es)[1..] == ElemTexts(es[1..]);
      PrintElemsJoin(es[1..]);
    }
  }

  // ----- adding members -----

  /** A member the gateway adds: key and value without whitespace. */
  datatype News = News(key: string, val: Value)

  function NewsText(n: News): string { MemberText(n.key, Print(n.val)) }

  function NewsTexts(news: seq<News>): (texts: seq<string>)
    ensures |texts| == |news|
  {
    Map(NewsText, news)
  }

  /** The new members; the last one takes over the whitespace before the closing brace. */
  function Fresh(news: seq<News>, post: string): (ms: seq<Entry>)
    ensures |ms| == |news|
  {
    seq(|news|, k requires 0 <= k < |news| =>
      Entry("", news[k].key, "", "", news[k].val, if k == |news| - 1 then post else ""))
  }

  function WithPost(ms: seq<Entry>, post: string): seq<Entry>
    requires ms != []
  {
    ms[|ms| - 1 := ms[|ms| - 1].(post := post)]
  }

  function LastPost(gap: string, ms: seq<Entry>): string {
    if ms == [] then gap else ms[|ms| - 1].post
  }

  function AddEntries(gap: string, ms: seq<Entry>, news: seq<News>): seq<Entry> {
    (if ms == [] then [] else WithPost(ms, "")) + Fresh(news, LastPost(gap, ms))
  }

  function AddToDoc(d: Doc, news: seq<News>): Doc {
    d.(members := AddEntries(d.gap, d.members, news))
  }

  lemma PrintFresh(news: seq<News>, post: string)
    requires news != []
    ensures PrintEntries(Fresh(news, post)) == Join(NewsTexts(news)) + post
  {
    var added := Fresh(news, post);
    PrintEntriesJoin(added);
    forall k | 0 <= k < |news|
      ensures EntryText(added[k]) == if k == |news| - 1 then NewsText(news[k]) + post else NewsText(news[k])
    {
      FreshText(news[k], if k == |news| - 1 then post else "");
    }
    MapTail(EntryText, added, NewsText, news, post);
  }

  lemma FreshText(n: News, post: string)
    ensures EntryText(Entry("", n.key, "", "", n.val, post)) == NewsText(n) + post
    ensures NewsText(n) + "" == NewsText(n)
  {
    var m := Entry("", n.key, "", "", n.val, post);
    assert KeyPart(m) == "\"" + n.key + "\":";
  }

  lemma PostText(m: Entry)
    ensures EntryText(m) == EntryText(m.(post := "")) + m.post
  {
    assert KeyPart(m.(post := "")) == KeyPart(m);
  }

  lemma PrintWithPost(ms: seq<Entry>)
    requires ms != []
    ensures PrintEntries(ms) == PrintEntries(WithPost(ms, "")) + ms[|ms| - 1].post
  {
    var bare := WithPost(ms, "");
    PrintEntriesJoin(ms);
    PrintEntriesJoin(bare);
    PostTexts(ms);
    JoinTail(EntryTexts(bare), ms[|ms| - 1].post);
  }

  /** Only the last text ends in the whitespace at the closing brace. */
  lemma PostTexts(ms: seq<Entry>)
    requires ms != []
    ensures var texts, n := EntryTexts(WithPost(ms, "")), |ms| - 1;
            EntryTexts(ms) == texts[n := texts[n] + ms[n].post]
  {
    PostText(ms[|ms| - 1]);
  }

  /** The members without the whitespace at the closing brace. */
  function Bare(ms: seq<Entry>): string {
    if ms == [] then "" else PrintEntries(WithPost(ms, ""))
  }

  lemma BareInside(gap: string, ms: seq<Entry>)
    ensures (if ms == [] then gap else PrintEntries(ms)) == Bare(ms) + LastPost(gap, ms)
  {
    if ms != [] {
      PrintWithPost(ms);
    }
  }

  function Separator(ms: seq<Entry>): string { if ms == [] then "" else "," }

  lemma AddedInside(gap: string, ms: seq<Entry>, news: seq<News>)
    requires news != []
    ensures PrintEntries(AddEntries(gap, ms, news)) ==
            Bare(ms) + (Separator(ms) + Join(NewsTexts(news))) + LastPost(gap, ms)
  {
    var added := Fresh(news, LastPost(gap, ms));
    PrintFresh(news, LastPost(gap, ms));
    if ms == [] {
      assert [] + added == added;
    } else {
      var bare := WithPost(ms, "");
      MapConcat(EntryText, bare, added);
      PrintEntriesJoin(bare + added);
      PrintEntriesJoin(bare);
      PrintEntriesJoin(added);
      JoinAppend(EntryTexts(bare), EntryTexts(added));
      AddRegroup(PrintEntries(bare), ",", Join(NewsTexts(news)), ms[|ms| - 1].post);
    }
  }

  lemma AddRegroup(a: string, b: string, c: string, d: string)
    ensures a + b + (c + d) == a + (b + c) + d
  {
  }

  /** Where a member can be added: behind the last one, before the whitespace at the brace. */
  function InsertionPoint(d: Doc): nat { |d.lead| + 1 + |Bare(d.members)| }

  lemma DocInsertParts(d: Doc)
    ensures var rest := LastPost(d.gap, d.members) + "}" + d.trail;
            PrintDoc(d) == (d.lead + "{" + Bare(d.members)) + rest
  {
    BareInside(d.gap, d.members);
    InsertRegroup(d.lead, "{", Bare(d.members), LastPost(d.gap, d.members), "}", d.trail);
  }

  lemma InsertRegroup(a: string, b: string, c: string, d: string, e: string, f: string)
    ensures a + (b + (c + d) + e) + f == (a + b + c) + (d + e + f)
  {
  }

  /** Adding members in the bytes adds them to the tree and nothing else. */
  lemma AddLaw(d: Doc, news: seq<News>)
    requires news != []
    ensures InsertionPoint(d) <= |PrintDoc(d)|
    ensures Splice(PrintDoc(d), InsertionPoint(d), InsertionPoint(d), Separator(d.members) + Join(NewsTexts(news)))
            == PrintDoc(AddToDoc(d, news))
  {
    var text := Separator(d.members) + Join(NewsTexts(news));
    var rest := LastPost(d.gap, d.members);
    DocInsertParts(d);
    AddedInside(d.gap, d.members, news);
    SpliceIn(d.lead + "{" + Bare(d.members), rest + "}" + d.trail, text);
    AddDocRegroup(d.lead, "{", Bare(d.members), text, rest, "}", d.trail);
  }

  lemma AddDocRegroup(a: string, b: string, c: string, d: string, e: string, f: string, g: string)
    ensures (a + b + c) + d + (e + f + g) == a + (b + (c + d + e) + f) + g
  {
  }

  // ----- finding the insertion point -----

  lemma {:induction false} CutBackOver(b: string, floor: nat, i: nat, n: nat)
    requires floor <= i <= n <= |b|
    requires forall k :: i <= k < n ==> IsSpace(b[k])
    requires i == floor || !IsSpace(b[i - 1])
    ensures CutBack(b, floor, n) == i
    decreases n
  {
    if n > i {
      CutBackOver(b, floor, i, n - 1);
    }
  }

  lemma {:induction false} BlankChar(s: string, k: nat)
    requires Blank(s) && k < |s|
    ensures IsSpace(s[k])
  {
    if k > 0 {
      BlankChar(s[1..], k - 1);
    }
  }

  /** Text, then whitespace up to the offset the loop starts from. */
  lemma CutBackText(b: string, floor: nat, text: string, ws: string, rest: string)
    requires b == text + (ws + rest) && Blank(ws)
    requires floor <= |text| && (floor == |text| || !IsSpace(text[|text| - 1]))
    ensures CutBack(b, floor, |text| + |ws|) == |text|
    ensures text != "" ==> b[|text| - 1] == text[|text| - 1]
  {
    forall k | |text| <= k < |text| + |ws|
      ensures IsSpace(b[k])
    {
      BlankChar(ws, k - |text|);
    }
    CutBackOver(b, floor, |text|, |text| + |ws|);
  }

  predicate EndsSolid(s: string) { s != "" && !IsSpace(s[|s| - 1]) && !IsOpen(s[|s| - 1]) }

  lemma {:induction false} ScalarEndsSolid(s: string)
    requires s != "" && Neutral(s) && Unended(s)
    ensures EndsSolid(s)
  {
    if |s| > 1 {
      ScalarEndsSolid(s[1..]);
    }
  }

  /** No value ends in whitespace or an opening bracket. */
  lemma ValueEndsSolid(v: Value)
    requires WF(v)
    ensures EndsSolid(Print(v))
  {
    if v.Scalar? {
      ScalarEndsSolid(v.text);
    }
  }

  lemma {:induction false} JoinEndsSolid(texts: seq<string>)
    requires texts != [] && EndsSolid(texts[|texts| - 1])
    ensures EndsSolid(Join(texts))
  {
    if |texts| > 1 {
      JoinEndsSolid(texts[1..]);
    }
  }

  lemma {:induction false} LastEntryWF(ms: seq<Entry>)
    requires ms != [] && WFEntries(ms)
    ensures WFEntry(ms[|ms| - 1])
  {
    if |ms| > 1 {
      LastEntryWF(ms[1..]);
    }
  }

  lemma {:induction false} LastElemWF(es: seq<Elem>)
    requires es != [] && WFElems(es)
    ensures WF(es[|es| - 1].val) && Blank(es[|es| - 1].post)
  {
    if |es| > 1 {
      LastElemWF(es[1..]);
    }
  }

  lemma {:induction false} BareEndsSolid(ms: seq<Entry>)
    requires ms != [] && WFEntries(ms)
    ensures EndsSolid(Bare(ms))
  {
    var bare := WithPost(ms, "");
    LastEntryWF(ms);
    ValueEndsSolid(ms[|ms| - 1].val);
    PrintEntriesJoin(bare);
    JoinEndsSolid(EntryTexts(bare));
  }

  lemma InsertionPointFound(d: Doc)
    requires WFDoc(d)
    ensures var end := DocEnd(d);
            var cut := InsertionPoint(d);
            && 0 < cut <= end < |PrintDoc(d)|
            && CutBack(PrintDoc(d), 0, end) == cut
            && (PrintDoc(d)[cut - 1] == '{' <==> d.members == [])
  {
    DocSize(d);
    LeadEndsSolid(d);
    DocFourParts(d);
    PointFound(PrintDoc(d), DocEnd(d), d.lead + "{" + Bare(d.members), LastPost(d.gap, d.members), "}" + d.trail);
  }

  lemma DocFourParts(d: Doc)
    ensures PrintDoc(d) == d.lead + "{" + Bare(d.members) + (LastPost(d.gap, d.members) + ("}" + d.trail))
  {
    DocInsertParts(d);
    Regroup(LastPost(d.gap, d.members), "}", d.trail);
  }

  /** Walking back over the whitespace ends behind the text. */
  lemma {:induction false} PointFound(b: string, end: nat, text: string, post: string, rest: string)
    requires b == text + (post + rest) && Blank(post) && end == |text| + |post| && rest != ""
    requires text != "" && !IsSpace(text[|text| - 1])
    ensures 0 < |text| <= end < |b| && CutBack(b, 0, end) == |text| && b[|text| - 1] == text[|text| - 1]
  {
    CutBackText(b, 0, text, post, rest);
  }

  lemma DocSize(d: Doc)
    ensures DocEnd(d) == InsertionPoint(d) + |LastPost(d.gap, d.members)|
    ensures |PrintDoc(d)| == |d.lead| + Size(Obj(d.gap, d.members)) + |d.trail|
  {
    PrintSize(Obj(d.gap, d.members));
    BareInside(d.gap, d.members);
  }

  lemma LeadEndsSolid(d: Doc)
    requires WFDoc(d)
    ensures var text := d.lead + "{" + Bare(d.members);
            !IsSpace(text[|text| - 1]) && (text[|text| - 1] == '{' <==> d.members == [])
    ensures Blank(LastPost(d.gap, d.members))
  {
    if d.members != [] {
      BareEndsSolid(d.members);
      LastEntryWF(d.members);
    }
  }

  lemma InsertAt(b: string, end: nat, cut: nat, key: string, value: string)
    requires end <= |b| && CutBack(b, 0, end) == cut && cut > 0
    ensures InsertJSONMember(b, end, key, value) ==
            Splice(b, cut, cut, (if b[cut - 1] != '{' then "," else "") + MemberText(key, value))
  {
  }

  lemma OneNews(key: string, v: Value)
    ensures Join(NewsTexts([News(key, v)])) == MemberText(key, Print(v))
  {
    assert NewsTexts([News(key, v)]) == [MemberText(key, Print(v))];
  }

  /** The closing brace of a printed body. */
  function DocEnd(d: Doc): nat { |d.lead| + Size(Obj(d.gap, d.members)) - 1 }

  lemma InsertIsSplice(d: Doc, key: string, value: string)
    requires WFDoc(d)
    ensures var b, cut := PrintDoc(d), InsertionPoint(d);
            && cut <= |b| && DocEnd(d) <= |b|
            && InsertJSONMember(b, DocEnd(d), key, value) ==
               Splice(b, cut, cut, Separator(d.members) + MemberText(key, value))
  {
    InsertionPointFound(d);
    InsertAt(PrintDoc(d), DocEnd(d), InsertionPoint(d), key, value);
  }

  /** insertJSONMember adds one member to the tree. */
  lemma InsertLaw(d: Doc, key: string, v: Value)
    requires WFDoc(d)
    ensures DocEnd(d) <= |PrintDoc(d)|
    ensures InsertJSONMember(PrintDoc(d), DocEnd(d), key, Print(v)) == PrintDoc(AddToDoc(d, [News(key, v)]))
  {
    InsertIsSplice(d, key, Print(v));
    OneNews(key, v);
    AddLaw(d, [News(key, v)]);
  }

  // ----- arrays -----

  function FreshElems(vals: seq<Value>, post: string): (es: seq<Elem>)
    ensures |es| == |vals|
  {
    seq(|vals|, k requires 0 <= k < |vals| => Elem("", vals[k], if k == |vals| - 1 then post else ""))
  }

  function WithElemPost(es: seq<Elem>, post: string): seq<Elem>
    requires es != []
  {
    es[|es| - 1 := es[|es| - 1].(post := post)]
  }

  function LastElemPost(gap: string, es: seq<Elem>): string {
    if es == [] then gap else es[|es| - 1].post
  }

  /** New elements behind the last one, before the whitespace at the bracket. */
  function AddElems(gap: string, es: seq<Elem>, vals: seq<Value>): seq<Elem> {
    (if es == [] then [] else WithElemPost(es, "")) + FreshElems(vals, LastElemPost(gap, es))
  }

  function BareElems(es: seq<Elem>): string {
    if es == [] then "" else PrintElems(WithElemPost(es, ""))
  }

  function ElemSeparator(es: seq<Elem>): string { if es == [] then "" else "," }

  lemma PrintFreshElems(vals: seq<Value>, post: string)
    requires vals != []
    ensures PrintElems(FreshElems(vals, post)) == Join(Map(Print, vals)) + post
  {
    var added := FreshElems(vals, post);
    PrintElemsJoin(added);
    forall k | 0 <= k < |vals|
      ensures ElemText(added[k]) == if k == |vals| - 1 then Print(vals[k]) + post else Print(vals[k])
    {
      FreshElemText(vals[k], if k == |vals| - 1 then post else "");
    }
    MapTail(ElemText, added, Print, vals, post);
  }

  lemma FreshElemText(v: Value, post: string)
    ensures ElemText(Elem("", v, post)) == Print(v) + post
    ensures Print(v) + "" == Print(v)
  {
  }

  lemma PrintWithElemPost(es: seq<Elem>)
    requires es != []
    ensures PrintElems(es) == PrintElems(WithElemPost(es, "")) + es[|es| - 1].post
  {
    var bare := WithElemPost(es, "");
    PrintElemsJoin(es);
    PrintElemsJoin(bare);
    ElemPostText(es[|es| - 1]);
    MapTail(ElemText, es, ElemText, bare, es[|es| - 1].post);
  }

  lemma ElemPostText(e: Elem)
    ensures ElemText(e) == ElemText(e.(post := "")) + e.post
  {
  }

  lemma BareElemsInside(gap: string, es: seq<Elem>)
    ensures (if es == [] then gap else PrintElems(es)) == BareElems(es) + LastElemPost(gap, es)
  {
    if es != [] {
      PrintWithElemPost(es);
    }
  }

  lemma PrintElemsConcat(a: seq<Elem>, b: seq<Elem>)
    requires a != [] && b != []
    ensures PrintElems(a + b) == PrintElems(a) + "," + PrintElems(b)
  {
    MapConcat(ElemText, a, b);
    PrintElemsJoin(a + b);
    PrintElemsJoin(a);
    PrintElemsJoin(b);
    JoinAppend(ElemTexts(a), ElemTexts(b));
  }

  lemma AddedElemsInside(gap: string, es: seq<Elem>, vals: seq<Value>)
    requires vals != []
    ensures PrintElems(AddElems(gap, es, vals)) ==
            BareElems(es) + (ElemSeparator(es) + Join(Map(Print, vals))) + LastElemPost(gap, es)
  {
    var post := LastElemPost(gap, es);
    var added := FreshElems(vals, post);
    PrintFreshElems(vals, post);
    if es == [] {
      assert [] + added == added;
      EmptyJoin(Join(Map(Print, vals)), post);
    } else {
      PrintElemsConcat(WithElemPost(es, ""), added);
      AddRegroup(BareElems(es), ",", Join(Map(Print, vals)), post);
    }
  }

  lemma EmptyJoin(s: string, post: string)
    ensures s + post == "" + ("" + s) + post
  {
  }

  /** Adding elements in the array's text adds them to the tree and nothing else. */
  lemma AddElemsLaw(gap: string, es: seq<Elem>, vals: seq<Value>)
    requires vals != []
    ensures var at := 1 + |BareElems(es)|;
            && at <= |Print(Arr(gap, es))|
            && Print(Arr(gap, AddElems(gap, es, vals))) ==
               Splice(Print(Arr(gap, es)), at, at, ElemSeparator(es) + Join(Map(Print, vals)))
  {
    var text := ElemSeparator(es) + Join(Map(Print, vals));
    var post := LastElemPost(gap, es);
    BareElemsInside(gap, es);
    AddedElemsInside(gap, es, vals);
    ArrayRegroup("[", BareElems(es), text, post, "]");
    SpliceIn("[" + BareElems(es), post + "]", text);
  }

  lemma ArrayRegroup(a: string, b: string, c: string, d: string, e: string)
    ensures a + (b + c + d) + e == (a + b) + c + (d + e)
    ensures a + (b + d) + e == (a + b) + (d + e)
  {
  }

  /** The element appendAssistantMessage writes: directly before the closing bracket. */
  function AppendElem(gap: string, es: seq<Elem>, v: Value): seq<Elem> {
    if es == [] then [Elem(gap, v, "")] else es + [Elem("", v, "")]
  }

  lemma AppendElemLaw(gap: string, es: seq<Elem>, v: Value)
    ensures var end := |Print(Arr(gap, es))| - 1;
            Print(Arr(gap, AppendElem(gap, es, v))) ==
            Splice(Print(Arr(gap, es)), end, end, ElemSeparator(es) + Print(v))
  {
    var inside := if es == [] then gap else PrintElems(es);
    var text := ElemSeparator(es) + Print(v);
    assert PrintElems(AppendElem(gap, es, v)) == inside + text by {
      if es == [] {
        assert gap + Print(v) + "" + "" == gap + ("" + Print(v));
      } else {
        PrintElemsConcat(es, [Elem("", v, "")]);
        OneElem(v);
        Regroup(PrintElems(es), ",", Print(v));
      }
    }
    AppendRegroup("[", inside, text, "]");
    SpliceIn("[" + inside, "]", text);
  }

  lemma OneElem(v: Value)
    ensures PrintElems([Elem("", v, "")]) == Print(v)
  {
  }

  lemma AppendRegroup(a: string, b: string, c: string, d: string)
    ensures a + (b + c) + d == (a + b) + c + d
  {
  }

  /** jsonArrayInsertion: the offset behind the last element. */
  function ArrayInsertion(b: string, span: Span): Option<nat> {
    if span.end > |b| || span.start >= span.end || b[span.start] != '[' || b[span.end - 1] != ']' then None
    else Some(CutBack(b, span.start + 1, span.end - 1))
  }

  lemma {:induction false} BareElemsEndSolid(es: seq<Elem>)
    requires es != [] && WFElems(es)
    ensures EndsSolid(BareElems(es))
  {
    var bare := WithElemPost(es, "");
    LastElemWF(es);
    ValueEndsSolid(es[|es| - 1].val);
    PrintElemsJoin(bare);
    JoinEndsSolid(ElemTexts(bare));
  }

  lemma ArrayInsertionIs(b: string, span: Span, cut: nat)
    requires span.start < span.end - 1 < |b| && b[span.start] == '[' && b[span.end - 1] == ']'
    requires CutBack(b, span.start + 1, span.end - 1) == cut
    ensures ArrayInsertion(b, span) == Some(cut)
  {
  }

  lemma PartChars(text: string, post: string, rest: string, k: nat)
    requires k < |text| && rest != ""
    ensures var b := text + (post + rest);
            |b| == |text| + |post| + |rest| && b[k] == text[k] && b[|text| + |post|] == rest[0]
  {
  }

  /** In a printed body, the insertion point of the array that is the value of member `k`. */
  lemma ArrayInsertionFound(d: Doc, k: nat)
    requires WFDoc(d) && k < |d.members| && d.members[k].val.Arr?
    ensures ArrayInsertion(PrintDoc(d), DocSpan(d, k)) ==
            Some(DocSpan(d, k).start + 1 + |BareElems(d.members[k].val.elems)|)
  {
    ArrayBrackets(d, k);
    ArrayCut(d, k);
    ArrayInsertionIs(PrintDoc(d), DocSpan(d, k), DocSpan(d, k).start + 1 + |BareElems(d.members[k].val.elems)|);
  }

  lemma ArrayBrackets(d: Doc, k: nat)
    requires k < |d.members| && d.members[k].val.Arr?
    ensures var b, span := PrintDoc(d), DocSpan(d, k);
            span.start < span.end - 1 < |b| && b[span.start] == '[' && b[span.end - 1] == ']'
  {
    var Arr(gap, es) := d.members[k].val;
    ArrayDocParts(d, k);
    PartChars(DocLeft(d, k) + ("[" + BareElems(es)), LastElemPost(gap, es), "]" + DocRight(d, k), |DocLeft(d, k)|);
  }

  lemma ArrayCut(d: Doc, k: nat)
    requires WFDoc(d) && k < |d.members| && d.members[k].val.Arr?
    ensures var b, span := PrintDoc(d), DocSpan(d, k);
            && 0 < span.end - 1 <= |b|
            && CutBack(b, span.start + 1, span.end - 1) == span.start + 1 + |BareElems(d.members[k].val.elems)|
  {
    var Arr(gap, es) := d.members[k].val;
    ArrayDocParts(d, k);
    ArrayEndsSolid(d.members, k);
    CutBackText(PrintDoc(d), |DocLeft(d, k)| + 1, DocLeft(d, k) + ("[" + BareElems(es)), LastElemPost(gap, es),
                "]" + DocRight(d, k));
  }

  lemma ArrayEndsSolid(ms: seq<Entry>, k: nat)
    requires WFEntries(ms) && k < |ms| && ms[k].val.Arr?
    ensures var Arr(gap, es) := ms[k].val;
            Blank(LastElemPost(gap, es)) && (es != [] ==> EndsSolid(BareElems(es)))
  {
    var Arr(gap, es) := ms[k].val;
    EntryWF(ms, k);
    if es != [] {
      BareElemsEndSolid(es);
      LastElemWF(es);
    }
  }

  lemma ArrayDocParts(d: Doc, k: nat)
    requires k < |d.members| && d.members[k].val.Arr?
    ensures var Arr(gap, es) := d.members[k].val;
            var span := DocSpan(d, k);
            && PrintDoc(d) ==
               (DocLeft(d, k) + ("[" + BareElems(es))) + (LastElemPost(gap, es) + ("]" + DocRight(d, k)))
            && span.start == |DocLeft(d, k)| && span.end == span.start + |BareElems(es)| + |LastElemPost(gap, es)| + 2
  {
    var Arr(gap, es) := d.members[k].val;
    DocSpanIs(d, k);
    BareElemsInside(gap, es);
    InnerRegroup(DocLeft(d, k), "[", BareElems(es), LastElemPost(gap, es), "]", DocRight(d, k));
  }

  lemma InnerRegroup(a: string, b: string, c: string, d: string, e: string, f: string)
    ensures a + (b + (c + d) + e) + f == (a + (b + c)) + (d + (e + f))
  {
  }

  lemma {:induction false} EntryWF(ms: seq<Entry>, k: nat)
    requires WFEntries(ms) && k < |ms|
    ensures WFEntry(ms[k])
  {
    if k > 0 {
      EntryWF(ms[1..], k - 1);
    }
  }
}
