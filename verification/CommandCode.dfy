/**
 Command Code event streams (commandcode.go): the incremental translator that
 emits Chat Completions deltas, the aggregator that folds a whole body, and the
 proof that folding the deltas gives what the aggregator gives.
 */
module CommandCode {
  import opened Text
  import opened Rewrite

  // ----- finish reasons -----

  function LowerChar(c: char): char {
    if 'A' <= c <= 'Z' then (c as int + 32) as char else c
  }

  /** strings.ToLower, for ASCII. */
  function Lower(s: string): (r: string)
    ensures |r| == |s| && forall k :: 0 <= k < |s| ==> r[k] == LowerChar(s[k])
  {
    seq(|s|, k requires 0 <= k < |s| => LowerChar(s[k]))
  }

  predicate IsSeparator(c: char) {
    c == '-' || c == '_' || c == ' ' || c == '\t' || c == '\n' || c == '\r' || c as int == 12
  }

  /** The word, at most one separator, and `error`. */
  predicate ErrorOf(r: string, word: string) {
    var n := |word|;
    r == word + "error" || (|r| == n + 6 && r[..n] == word && IsSeparator(r[n]) && r[n + 1..] == "error")
  }

  predicate IsNetworkError(r: string) {
    ErrorOf(r, "network") || ErrorOf(r, "connection") || ErrorOf(r, "upstream")
  }

  /** ccMapFinishReason */
  function MapFinishReason(reason: string): string {
    var r := Lower(TrimSpace(reason));
    if r == "" then "stop"
    else if r == "tool-calls" || r == "tool_calls" || r == "tool_use" then "tool_calls"
    else if r == "length" || r == "max_tokens" || r == "max_output_tokens" || r == "model_context_window_exceeded" then
      "length"
    else if r == "error" || IsNetworkError(r) then "upstream_error"
    else r
  }

  /** ccToOpenAIFinishReason */
  function ToOpenAIFinishReason(reason: string): string {
    if reason == "pause_turn" then "length"
    else if reason in ["upstream_error", "stop", "length", "tool_calls", "content_filter", "function_call"] then reason
    else "stop"
  }

  predicate Trimmed(s: string) { s == "" || (!IsGoSpace(s[0]) && !IsGoSpace(s[|s| - 1])) }

  lemma {:induction false} TrimIsTrimmed(s: string)
    ensures Trimmed(TrimSpace(s))
    decreases |s|
  {
    if s != "" {
      if IsGoSpace(s[0]) {
        TrimIsTrimmed(s[1..]);
      } else if IsGoSpace(s[|s| - 1]) {
        TrimIsTrimmed(s[..|s| - 1]);
      }
    }
  }

  lemma TrimmedStays(s: string)
    requires Trimmed(s)
    ensures TrimSpace(s) == s
  {
  }

  lemma LowerSpace(c: char)
    ensures IsGoSpace(LowerChar(c)) <==> IsGoSpace(c)
    ensures LowerChar(LowerChar(c)) == LowerChar(c)
  {
  }

  lemma LowerTrimmed(s: string)
    requires Trimmed(s)
    ensures Trimmed(Lower(s)) && Lower(Lower(s)) == Lower(s)
  {
    if s != "" {
      LowerSpace(s[0]);
      LowerSpace(s[|s| - 1]);
    }
    forall k | 0 <= k < |s|
      ensures Lower(Lower(s))[k] == Lower(s)[k]
    {
      LowerSpace(s[k]);
    }
  }

  lemma PlainReason(r: string)
    requires Trimmed(r) && Lower(r) == r
    ensures Lower(TrimSpace(r)) == r
  {
    TrimmedStays(r);
  }

  /** Mapping a mapped reason changes nothing, so the translator may map twice. */
  lemma MapIdempotent(reason: string)
    ensures MapFinishReason(MapFinishReason(reason)) == MapFinishReason(reason)
  {
    var r := Lower(TrimSpace(reason));
    TrimIsTrimmed(reason);
    LowerTrimmed(TrimSpace(reason));
    PlainReason(r);
    StopStays();
    ToolCallsStays();
    LengthStays();
    UpstreamErrorStays();
  }

  lemma StopStays() ensures MapFinishReason("stop") == "stop" { PlainReason("stop"); }
  lemma ToolCallsStays() ensures MapFinishReason("tool_calls") == "tool_calls" { PlainReason("tool_calls"); }
  lemma LengthStays() ensures MapFinishReason("length") == "length" { PlainReason("length"); }
  lemma UpstreamErrorStays()
    ensures MapFinishReason("upstream_error") == "upstream_error"
  {
    PlainReason("upstream_error");
    assert ErrorOf("upstream_error", "upstream");
  }

  /** A client only ever sees a reason it knows, or the marker for a retry. */
  lemma FinishReasonsKnown(reason: string)
    ensures ToOpenAIFinishReason(reason) in
              ["upstream_error", "stop", "length", "tool_calls", "content_filter", "function_call"]
    ensures ToOpenAIFinishReason(ToOpenAIFinishReason(reason)) == ToOpenAIFinishReason(reason)
    ensures ToOpenAIFinishReason(reason) == "upstream_error" <==> reason == "upstream_error"
  {
  }

  // ----- events -----

  datatype Usage = Usage(input: int, output: int, cached: int)

  /** ccNormalizeUsage */
  function Normalize(u: Usage): Usage { if u.output == 0 then Usage(0, 0, 0) else u }

  function NormalizeIf(u: Option<Usage>): Option<Usage> {
    match u case None => None case Some(v) => Some(Normalize(v))
  }

  /** A decoded event; `arguments` is the input as ccInputString renders it. */
  datatype Event =
    | TextDelta(text: string, delta: string)
    | ReasoningDelta(text: string)
    | ToolCall(id: string, name: string, arguments: string)
    | FinishStep(reason: string, usage: Option<Usage>)
    | Finish(reason: string, totalUsage: Option<Usage>)
    | Failure(message: string, inner: Option<string>)
    | Other

  function TextOf(e: Event): string
    requires e.TextDelta?
  {
    if e.text == "" then e.delta else e.text
  }

  /** One object of the outgoing stream; `first` marks the delta that carries the role. */
  datatype Piece =
    | Content(first: bool, text: string)
    | Reasoning(first: bool, text: string)
    | Call(first: bool, index: nat, id: string, name: string, arguments: string)
    | End(reason: string, usage: Option<Usage>)
    | Error(message: string)

  // ----- the translator's state -----

  datatype State = State(chunkIndex: nat, toolCallIndex: nat, sawFinish: bool, finishReason: string,
                         usage: Option<Usage>, outputTokens: int)

  const START := State(0, 0, false, "", None, 0)

  function FirstNonEmpty(a: string, b: string, c: string): string {
    if a != "" then a else if b != "" then b else c
  }

  /** The finish event: the reason and usage of the last step stand in for missing ones. */
  function FinishPiece(st: State, reason: string, usage: Option<Usage>): Piece {
    var mapped := ToOpenAIFinishReason(MapFinishReason(FirstNonEmpty(reason, st.finishReason, "stop")));
    if mapped == "upstream_error" then Error("provider reported an upstream connection failure")
    else End(mapped, NormalizeIf(usage))
  }

  /** translateLine, from the decoded event on; `mint` makes an id for the call of that index. */
  function Translate(st: State, e: Event, mint: nat -> string): (r: (State, seq<Piece>)) {
    match e
    case TextDelta(_, _) =>
      if TextOf(e) == "" then (st, [])
      else (st.(chunkIndex := st.chunkIndex + 1), [Content(st.chunkIndex == 0, TextOf(e))])
    case ReasoningDelta(text) =>
      if text == "" then (st, [])
      else (st.(chunkIndex := st.chunkIndex + 1), [Reasoning(st.chunkIndex == 0, text)])
    case ToolCall(id, name, arguments) =>
      (st.(chunkIndex := st.chunkIndex + 1, toolCallIndex := st.toolCallIndex + 1),
       [Call(st.chunkIndex == 0, st.toolCallIndex, if id == "" then mint(st.toolCallIndex) else id, name, arguments)])
    case FinishStep(reason, usage) =>
      (st.(sawFinish := true,
           finishReason := if reason != "" then MapFinishReason(reason) else st.finishReason,
           usage := if usage.Some? then usage else st.usage,
           outputTokens := if usage.Some? then usage.value.output else st.outputTokens), [])
    case Finish(reason, total) =>
      var u := if total.Some? then total else st.usage;
      (st.(sawFinish := true,
           usage := if total.Some? then st.usage else NormalizeIf(st.usage),
           outputTokens := if u.Some? then u.value.output else st.outputTokens),
       [FinishPiece(st, reason, u)])
    case Failure(message, inner) =>
      var msg := if inner.Some? && inner.value != "" then inner.value else message;
      (st, [Error(if msg == "" then "Unknown error" else msg)])
    case Other => (st, [])
  }

  function TranslateAll(st: State, events: seq<Event>, mint: nat -> string): (State, seq<Piece>) {
    if events == [] then (st, [])
    else
      var (mid, pieces) := TranslateAll(st, events[..|events| - 1], mint);
      var (end, last) := Translate(mid, events[|events| - 1], mint);
      (end, pieces + last)
  }

  // ----- the aggregator -----

  datatype CallText = CallText(id: string, name: string, arguments: string)

  datatype Folded = Folded(text: string, reasoning: string, calls: seq<CallText>, sawFinish: bool,
                           finishReason: string, usage: Option<Usage>, error: Option<string>)

  const UNFOLDED := Folded("", "", [], false, "stop", None, None)

  function Fold(a: Folded, e: Event, mint: nat -> string): Folded {
    match e
    case TextDelta(_, _) => a.(text := a.text + TextOf(e))
    case ReasoningDelta(text) => a.(reasoning := a.reasoning + text)
    case ToolCall(id, name, arguments) =>
      a.(calls := a.calls + [CallText(if id == "" then mint(|a.calls|) else id, name, arguments)])
    case FinishStep(reason, usage) =>
      a.(sawFinish := true,
         finishReason := if reason != "" then MapFinishReason(reason) else a.finishReason,
         usage := if usage.Some? then usage else a.usage)
    case Finish(reason, total) =>
      a.(sawFinish := true,
         finishReason := if reason != "" then MapFinishReason(reason) else a.finishReason,
         usage := if total.Some? then total else a.usage)
    case Failure(message, inner) =>
      var msg := if inner.Some? && inner.value != "" then inner.value else message;
      a.(error := Some(if msg == "" then "Unknown CC error" else msg))
    case Other => a
  }

  function FoldAll(events: seq<Event>, mint: nat -> string): Folded {
    if events == [] then UNFOLDED else Fold(FoldAll(events[..|events| - 1], mint), events[|events| - 1], mint)
  }

  /** The object a client gets for the whole response. */
  datatype Completion = Completion(content: string, reasoning: string, calls: seq<CallText>, reason: string,
                                   usage: Usage)

  datatype Aggregated = Whole(completion: Completion) | Truncated | UpstreamError(message: string) | Empty

  function UsageOr(u: Option<Usage>): Usage { match u case Some(v) => v case None => Usage(0, 0, 0) }

  function Conclude(a: Folded): Aggregated {
    if !a.sawFinish && a.error.None? then Truncated
    else if a.error.Some? then UpstreamError(a.error.value)
    else
      var usage := UsageOr(NormalizeIf(a.usage));
      if usage.output == 0 && a.calls == [] then Empty
      else Whole(Completion(a.text, a.reasoning, a.calls, ToOpenAIFinishReason(a.finishReason), usage))
  }

  /** ccAggregateStream, over the decoded events of the body. */
  function Aggregate(events: seq<Event>, mint: nat -> string): Aggregated { Conclude(FoldAll(events, mint)) }

  // ----- what a client makes of the deltas -----

  /** A client groups call deltas by index and joins their arguments. */
  datatype Client = Client(content: string, reasoning: string, calls: map<nat, CallText>, reason: Option<string>,
                           usage: Option<Usage>)

  const NOTHING := Client("", "", map[], None, None)

  function Receive(c: Client, p: Piece): Client {
    match p
    case Content(_, text) => c.(content := c.content + text)
    case Reasoning(_, text) => c.(reasoning := c.reasoning + text)
    case Call(_, index, id, name, arguments) =>
      c.(calls := c.calls[index :=
           if index in c.calls then c.calls[index].(arguments := c.calls[index].arguments + arguments)
           else CallText(id, name, arguments)])
    case End(reason, usage) => c.(reason := Some(reason), usage := usage)
    case Error(_) => c
  }

  function ReceiveAll(pieces: seq<Piece>): Client {
    if pieces == [] then NOTHING else Receive(ReceiveAll(pieces[..|pieces| - 1]), pieces[|pieces| - 1])
  }

  /** No error event, and no finish before the last event. */
  predicate NoEndYet(events: seq<Event>) {
    forall i :: 0 <= i < |events| ==> !events[i].Failure? && !events[i].Finish?
  }

  /** The reader's state and the client's view, side by side with the aggregator's. */
  ghost predicate InStep(st: State, c: Client, a: Folded) {
    && c.content == a.text && c.reasoning == a.reasoning
    && st.toolCallIndex == |a.calls| && st.chunkIndex >= st.toolCallIndex
    && (st.chunkIndex == 0 <==> a.text == "" && a.reasoning == "" && a.calls == [])
    && (forall i :: i in c.calls <==> 0 <= i < |a.calls|)
    && (forall i :: 0 <= i < |a.calls| ==> c.calls[i] == a.calls[i])
    && c.reason.None? && c.usage.None? && a.error.None?
    && st.sawFinish == a.sawFinish && st.usage == a.usage
    && st.outputTokens == (if a.usage.Some? then a.usage.value.output else 0)
    && a.finishReason == (if st.finishReason == "" then "stop" else st.finishReason)
  }

  lemma ReceiveNone(pieces: seq<Piece>)
    ensures ReceiveAll(pieces + []) == ReceiveAll(pieces)
  {
    assert pieces + [] == pieces;
  }

  lemma ReceiveOne(pieces: seq<Piece>, p: Piece)
    ensures ReceiveAll(pieces + [p]) == Receive(ReceiveAll(pieces), p)
  {
    assert (pieces + [p])[..|pieces|] == pieces;
  }

  lemma ReasonNeverEmpty(reason: string)
    ensures MapFinishReason(reason) != ""
  {
  }

  /** The client's view after the pieces of one event. */
  function After(c: Client, more: seq<Piece>): Client { if more == [] then c else Receive(c, more[0]) }

  lemma TextInStep(st: State, c: Client, a: Folded, e: Event, mint: nat -> string)
    requires InStep(st, c, a) && e.TextDelta?
    ensures InStep(Translate(st, e, mint).0, After(c, Translate(st, e, mint).1), Fold(a, e, mint))
  {
    assert a.text + "" == a.text;
  }

  lemma ReasoningInStep(st: State, c: Client, a: Folded, e: Event, mint: nat -> string)
    requires InStep(st, c, a) && e.ReasoningDelta?
    ensures InStep(Translate(st, e, mint).0, After(c, Translate(st, e, mint).1), Fold(a, e, mint))
  {
    assert a.reasoning + "" == a.reasoning;
  }

  lemma CallInStep(st: State, c: Client, a: Folded, e: Event, mint: nat -> string)
    requires InStep(st, c, a) && e.ToolCall?
    ensures InStep(Translate(st, e, mint).0, After(c, Translate(st, e, mint).1), Fold(a, e, mint))
  {
  }

  lemma StepReasonInStep(st: State, c: Client, a: Folded, e: Event, mint: nat -> string)
    requires InStep(st, c, a) && e.FinishStep?
    ensures InStep(Translate(st, e, mint).0, After(c, Translate(st, e, mint).1), Fold(a, e, mint))
  {
    ReasonNeverEmpty(e.reason);
  }

  lemma EventInStep(st: State, c: Client, a: Folded, e: Event, mint: nat -> string)
    requires InStep(st, c, a) && !e.Failure? && !e.Finish?
    ensures InStep(Translate(st, e, mint).0, After(c, Translate(st, e, mint).1), Fold(a, e, mint))
  {
    match e {
      case TextDelta(_, _) => TextInStep(st, c, a, e, mint);
      case ReasoningDelta(_) => ReasoningInStep(st, c, a, e, mint);
      case ToolCall(_, _, _) => CallInStep(st, c, a, e, mint);
      case FinishStep(_, _) => StepReasonInStep(st, c, a, e, mint);
      case Other =>
    }
  }

  lemma OnePiece(st: State, e: Event, mint: nat -> string)
    ensures |Translate(st, e, mint).1| <= 1
  {
  }

  lemma ReceiveMore(pieces: seq<Piece>, more: seq<Piece>)
    requires |more| <= 1
    ensures ReceiveAll(pieces + more) == After(ReceiveAll(pieces), more)
  {
    if more == [] {
      ReceiveNone(pieces);
    } else {
      assert more == [more[0]];
      ReceiveOne(pieces, more[0]);
    }
  }

  lemma {:induction false} RunInStep(events: seq<Event>, mint: nat -> string)
    requires NoEndYet(events)
    ensures InStep(TranslateAll(START, events, mint).0, ReceiveAll(TranslateAll(START, events, mint).1),
                   FoldAll(events, mint))
    decreases |events|
  {
    if events != [] {
      var init, e := events[..|events| - 1], events[|events| - 1];
      RunInStep(init, mint);
      var mid, pieces := TranslateAll(START, init, mint).0, TranslateAll(START, init, mint).1;
      EventInStep(mid, ReceiveAll(pieces), FoldAll(init, mint), e, mint);
      OnePiece(mid, e, mint);
      ReceiveMore(pieces, Translate(mid, e, mint).1);
    }
  }

  lemma FoldedReason(a: Folded, e: Event, mint: nat -> string)
    ensures Fold(a, e, mint).finishReason ==
            if (e.FinishStep? || e.Finish?) && e.reason != "" then MapFinishReason(e.reason) else a.finishReason
  {
  }

  /** Every reason the aggregator holds is already mapped. */
  lemma {:induction false} ReasonSettled(events: seq<Event>, mint: nat -> string)
    ensures MapFinishReason(FoldAll(events, mint).finishReason) == FoldAll(events, mint).finishReason
    decreases |events|
  {
    if events == [] {
      StopStays();
    } else {
      var init, e := events[..|events| - 1], events[|events| - 1];
      ReasonSettled(init, mint);
      FoldedReason(FoldAll(init, mint), e, mint);
      if (e.FinishStep? || e.Finish?) && e.reason != "" {
        MapIdempotent(e.reason);
      }
    }
  }

  /** What the client should have after the finish event. */
  ghost predicate SameCompletion(c: Client, w: Completion) {
    && c.content == w.content && c.reasoning == w.reasoning
    && (forall i :: i in c.calls <==> 0 <= i < |w.calls|)
    && (forall i :: 0 <= i < |w.calls| ==> c.calls[i] == w.calls[i])
    && c.reason == Some(w.reason)
    && UsageOr(c.usage) == w.usage
  }

  /** The reasons the two sides settle on are the same. */
  lemma SameReason(st: State, a: Folded, reason: string)
    requires a.finishReason == (if st.finishReason == "" then "stop" else st.finishReason)
    requires MapFinishReason(a.finishReason) == a.finishReason
    ensures MapFinishReason(FirstNonEmpty(reason, st.finishReason, "stop")) ==
            if reason != "" then MapFinishReason(reason) else a.finishReason
  {
    StopStays();
  }

  /**
   Streamed or folded, the client gets the same answer: for every run of events
   without an error and with one finish at its end, whenever the aggregator
   succeeds with a reason that is not the retry marker.
   */
  lemma StreamEqualsAggregate(events: seq<Event>, last: Event, mint: nat -> string)
    requires NoEndYet(events) && last.Finish?
    requires var whole := Aggregate(events + [last], mint);
             whole.Whole? && whole.completion.reason != "upstream_error"
    ensures SameCompletion(ReceiveAll(TranslateAll(START, events + [last], mint).1),
                           Aggregate(events + [last], mint).completion)
  {
    var all := events + [last];
    assert all[..|all| - 1] == events;
    RunInStep(events, mint);
    ReasonSettled(events, mint);
    var st, pieces, a := TranslateAll(START, events, mint).0, TranslateAll(START, events, mint).1, FoldAll(events, mint);
    SameReason(st, a, last.reason);
    FinishInStep(st, ReceiveAll(pieces), a, last, mint);
    OnePiece(st, last, mint);
    ReceiveMore(pieces, Translate(st, last, mint).1);
  }

  lemma FinishInStep(st: State, c: Client, a: Folded, last: Event, mint: nat -> string)
    requires InStep(st, c, a) && last.Finish?
    requires MapFinishReason(FirstNonEmpty(last.reason, st.finishReason, "stop")) ==
             if last.reason != "" then MapFinishReason(last.reason) else a.finishReason
    requires var whole := Conclude(Fold(a, last, mint));
             whole.Whole? && whole.completion.reason != "upstream_error"
    ensures SameCompletion(After(c, Translate(st, last, mint).1), Conclude(Fold(a, last, mint)).completion)
  {
  }

  /** The reader's guard against an empty response. */
  predicate NothingSent(st: State) { st.chunkIndex == 0 && st.toolCallIndex == 0 && st.outputTokens == 0 }

  /** Where the two guards differ: text was sent, but no output tokens were reported. */
  lemma EmptyGuards(events: seq<Event>, last: Event, mint: nat -> string)
    requires NoEndYet(events) && last.Finish?
    ensures var a := FoldAll(events, mint);
            NothingSent(TranslateAll(START, events + [last], mint).0) <==>
            Aggregate(events + [last], mint).Empty? && a.text == "" && a.reasoning == ""
  {
    var all := events + [last];
    assert all[..|all| - 1] == events;
    RunInStep(events, mint);
  }

  // ----- the role -----

  predicate IsDelta(p: Piece) { p.Content? || p.Reasoning? || p.Call? }

  predicate CarriesRole(p: Piece) { IsDelta(p) && p.first }

  /** Exactly the first delta carries the role. */
  predicate RoleFirst(pieces: seq<Piece>) {
    forall i :: 0 <= i < |pieces| ==>
      (CarriesRole(pieces[i]) <==> IsDelta(pieces[i]) && NoDelta(pieces[..i]))
  }

  predicate NoDelta(pieces: seq<Piece>) { forall i :: 0 <= i < |pieces| ==> !IsDelta(pieces[i]) }

  lemma RoleStep(st: State, pieces: seq<Piece>, e: Event, mint: nat -> string)
    requires RoleFirst(pieces) && (st.chunkIndex == 0 <==> NoDelta(pieces))
    ensures var (now, more) := Translate(st, e, mint);
            RoleFirst(pieces + more) && (now.chunkIndex == 0 <==> NoDelta(pieces + more))
  {
    var (now, more) := Translate(st, e, mint);
    OnePiece(st, e, mint);
    if more == [] {
      assert pieces + more == pieces;
    } else {
      var all := pieces + more;
      assert all[..|pieces|] == pieces && all == pieces + [more[0]];
      forall i | 0 <= i < |all|
        ensures CarriesRole(all[i]) <==> IsDelta(all[i]) && NoDelta(all[..i])
      {
        if i < |pieces| {
          assert all[..i] == pieces[..i];
        }
      }
      assert all[|pieces|] == more[0];
      assert forall i :: 0 <= i < |pieces| ==> all[i] == pieces[i];
    }
  }

  /** In every run, errors and repeated finishes included, the role comes once, with the first delta. */
  lemma {:induction false} RoleOnce(events: seq<Event>, mint: nat -> string)
    ensures RoleFirst(TranslateAll(START, events, mint).1)
    ensures TranslateAll(START, events, mint).0.chunkIndex == 0 <==> NoDelta(TranslateAll(START, events, mint).1)
    decreases |events|
  {
    if events != [] {
      var init := events[..|events| - 1];
      RoleOnce(init, mint);
      RoleStep(TranslateAll(START, init, mint).0, TranslateAll(START, init, mint).1, events[|events| - 1], mint);
    }
  }
}
