/**
 What a list of Command Code events says, read off the events themselves, and the
 proof that the aggregator and the translator of commandcode.go report exactly that.
 */
module Responses {
  import opened Text
  import opened Rewrite
  import opened CommandCode

  // ----- finish reasons, as a table -----

  /** `word` and `error`, with at most one separator between them. */
  predicate FailureOf(r: string, word: string) {
    r == word + "error" || exists c :: c in {'-', '_', ' ', '\t', '\n', '\r', '\U{C}'} && r == word + [c] + "error"
  }

  lemma FailureIs(r: string, word: string)
    ensures FailureOf(r, word) <==> ErrorOf(r, word)
  {
    var n := |word|;
    if |r| == n + 6 && r[..n] == word && IsSeparator(r[n]) && r[n + 1..] == "error" {
      assert r == word + [r[n]] + "error";
    }
    forall c | r == word + [c] + "error"
      ensures |r| == n + 6 && r[..n] == word && r[n] == c && r[n + 1..] == "error"
    {
    }
  }

  predicate NetworkFailure(r: string) {
    r == "error" || FailureOf(r, "network") || FailureOf(r, "connection") || FailureOf(r, "upstream")
  }

  lemma NetworkIs(r: string)
    ensures NetworkFailure(r) <==> r == "error" || IsNetworkError(r)
  {
    FailureIs(r, "network");
    FailureIs(r, "connection");
    FailureIs(r, "upstream");
  }

  predicate CallReason(r: string) { r == "tool-calls" || r == "tool_calls" || r == "tool_use" }

  predicate LengthReason(r: string) {
    r == "length" || r == "max_tokens" || r == "max_output_tokens" || r == "model_context_window_exceeded"
  }

  /** ccMapFinishReason, by the reason `r` in lower case and without outer space. */
  lemma ReasonTable(reason: string, r: string)
    requires r == Lower(TrimSpace(reason))
    ensures r == "" ==> MapFinishReason(reason) == "stop"
    ensures CallReason(r) ==> MapFinishReason(reason) == "tool_calls"
    ensures LengthReason(r) ==> MapFinishReason(reason) == "length"
    ensures r != "" && !CallReason(r) && !LengthReason(r) ==>
              MapFinishReason(reason) == if NetworkFailure(r) then "upstream_error" else r
  {
    NetworkIs(r);
  }

  /** What the client may see of a mapped reason. */
  lemma ClientReasons(reason: string)
    ensures reason in {"upstream_error", "stop", "length", "tool_calls", "content_filter", "function_call"} ==>
              ToOpenAIFinishReason(reason) == reason
    ensures reason == "pause_turn" ==> ToOpenAIFinishReason(reason) == "length"
    ensures reason !in {"upstream_error", "length", "tool_calls", "content_filter", "function_call", "pause_turn"} ==>
              ToOpenAIFinishReason(reason) == "stop"
  {
  }

  // ----- what the events say -----

  predicate Ends(e: Event) { e.FinishStep? || e.Finish? }

  function Said(e: Event): string {
    match e case TextDelta(text, delta) => if text != "" then text else delta case _ => ""
  }

  function Thought(e: Event): string { if e.ReasoningDelta? then e.text else "" }

  function Texts(events: seq<Event>): string {
    if events == [] then "" else Texts(events[..|events| - 1]) + Said(events[|events| - 1])
  }

  function Thoughts(events: seq<Event>): string {
    if events == [] then "" else Thoughts(events[..|events| - 1]) + Thought(events[|events| - 1])
  }

  /** The tool calls in order; one without an id gets the id made for its place. */
  function CallsIn(events: seq<Event>, mint: nat -> string): seq<CallText> {
    if events == [] then []
    else
      var before := CallsIn(events[..|events| - 1], mint);
      match events[|events| - 1]
      case ToolCall(id, name, arguments) =>
        before + [CallText(if id != "" then id else mint(|before|), name, arguments)]
      case _ => before
  }

  function ReasonOf(e: Event): string { if Ends(e) then e.reason else "" }

  /** The last reason that is given, or none. */
  function LastReason(events: seq<Event>): string {
    if events == [] then ""
    else if ReasonOf(events[|events| - 1]) != "" then ReasonOf(events[|events| - 1])
    else LastReason(events[..|events| - 1])
  }

  function UsageIn(e: Event): Option<Usage> {
    match e case FinishStep(_, usage) => usage case Finish(_, total) => total case _ => None
  }

  /** The last usage that is given. */
  function LastUsage(events: seq<Event>): Option<Usage> {
    if events == [] then None
    else if UsageIn(events[|events| - 1]).Some? then UsageIn(events[|events| - 1])
    else LastUsage(events[..|events| - 1])
  }

  /** The message of an error event: the inner one, else its own, else a fixed one. */
  function Complaint(e: Event, default: string): Option<string> {
    match e
    case Failure(message, inner) =>
      Some(if inner.Some? && inner.value != "" then inner.value else if message != "" then message else default)
    case _ => None
  }

  function LastComplaint(events: seq<Event>): Option<string> {
    if events == [] then None
    else
      match Complaint(events[|events| - 1], "Unknown CC error")
      case Some(m) => Some(m)
      case None => LastComplaint(events[..|events| - 1])
  }

  predicate Ended(events: seq<Event>) { exists i :: 0 <= i < |events| && Ends(events[i]) }

  lemma EndedMore(events: seq<Event>)
    requires events != []
    ensures Ended(events) <==> Ended(events[..|events| - 1]) || Ends(events[|events| - 1])
  {
    var n := |events| - 1;
    if Ended(events) {
      var i :| 0 <= i < |events| && Ends(events[i]);
      assert i < n ==> events[..n][i] == events[i];
    }
    if Ended(events[..n]) {
      var i :| 0 <= i < n && Ends(events[..n][i]);
      assert events[..n][i] == events[i];
    }
  }

  // ----- the aggregator reports it -----

  /** The aggregator's fields against the events. */
  ghost predicate Sums(a: Folded, events: seq<Event>, mint: nat -> string) {
    a.text == Texts(events) && a.reasoning == Thoughts(events) && a.calls == CallsIn(events, mint) && Settles(a, events)
  }

  ghost predicate Settles(a: Folded, events: seq<Event>) {
    && (a.sawFinish <==> Ended(events)) && a.usage == LastUsage(events) && a.error == LastComplaint(events)
    && a.finishReason == if LastReason(events) == "" then "stop" else MapFinishReason(LastReason(events))
  }

  lemma FoldSettles(a: Folded, events: seq<Event>, e: Event, mint: nat -> string)
    requires Settles(a, events)
    ensures Settles(Fold(a, e, mint), events + [e])
  {
    assert (events + [e])[..|events|] == events;
    EndedMore(events + [e]);
  }

  lemma FoldSums(a: Folded, events: seq<Event>, e: Event, mint: nat -> string)
    requires Sums(a, events, mint)
    ensures Sums(Fold(a, e, mint), events + [e], mint)
  {
    FoldSettles(a, events, e, mint);
    assert (events + [e])[..|events|] == events;
    assert a.text + "" == a.text && a.reasoning + "" == a.reasoning;
  }

  lemma {:induction false} FoldAllSums(events: seq<Event>, mint: nat -> string)
    ensures Sums(FoldAll(events, mint), events, mint)
    decreases |events|
  {
    if events != [] {
      var n := |events| - 1;
      FoldAllSums(events[..n], mint);
      FoldSums(FoldAll(events[..n], mint), events[..n], events[n], mint);
      assert events == events[..n] + [events[n]];
    }
  }

  function Tokens(events: seq<Event>): int {
    match LastUsage(events) case Some(u) => u.output case None => 0
  }

  /** What the client is billed: nothing when there was no output. */
  function Billed(events: seq<Event>): Usage {
    match LastUsage(events)
    case Some(u) => if u.output == 0 then Usage(0, 0, 0) else u
    case None => Usage(0, 0, 0)
  }

  /**
   The four outcomes of the aggregator: an error event decides; then a body without a finish is
   truncated, one without output tokens and calls is empty, and any other is reported whole.
   */
  lemma AggregateReports(events: seq<Event>, mint: nat -> string)
    ensures Aggregate(events, mint) ==
            match LastComplaint(events)
            case Some(m) => UpstreamError(m)
            case None =>
              if !Ended(events) then Truncated
              else if Tokens(events) == 0 && CallsIn(events, mint) == [] then Empty
              else
                var reason := if LastReason(events) == "" then "stop" else MapFinishReason(LastReason(events));
                Whole(Completion(Texts(events), Thoughts(events), CallsIn(events, mint), ToOpenAIFinishReason(reason),
                                 Billed(events)))
  {
    FoldAllSums(events, mint);
  }

  // ----- the translator shows each error -----

  /** The last reason of a step, which stands in for a finish without one. */
  function StepReason(events: seq<Event>): string {
    if events == [] then ""
    else
      var e := events[|events| - 1];
      if e.FinishStep? && e.reason != "" then e.reason else StepReason(events[..|events| - 1])
  }

  /** A finish whose reason, or else that of the last step, is a failure of the upstream. */
  predicate FinishFails(before: seq<Event>, e: Event) {
    e.Finish? &&
    MapFinishReason(FirstNonEmpty(e.reason, StepReason(before), "stop")) == "upstream_error"
  }

  /** The error a client should see of an event: of each error event and each failed finish. */
  function ErrorAt(before: seq<Event>, e: Event): seq<string> {
    match Complaint(e, "Unknown error")
    case Some(m) => [m]
    case None => if FinishFails(before, e) then ["provider reported an upstream connection failure"] else []
  }

  function Errors(events: seq<Event>): seq<string> {
    if events == [] then []
    else Errors(events[..|events| - 1]) + ErrorAt(events[..|events| - 1], events[|events| - 1])
  }

  function ErrorsIn(pieces: seq<Piece>): seq<string> {
    if pieces == [] then []
    else
      ErrorsIn(pieces[..|pieces| - 1]) +
      match pieces[|pieces| - 1] case Error(m) => [m] case _ => []
  }

  lemma ErrorsInMore(pieces: seq<Piece>, more: seq<Piece>)
    requires |more| <= 1
    ensures ErrorsIn(pieces + more) == ErrorsIn(pieces) + ErrorsIn(more)
  {
    if more == [] {
      assert pieces + more == pieces;
    } else {
      assert (pieces + more)[..|pieces|] == pieces && more[..0] == [];
    }
  }

  /** Mapping the reason of the last step again changes nothing. */
  lemma SameFinish(step: string, kept: string, reason: string)
    requires Keeps(kept, step)
    ensures MapFinishReason(FirstNonEmpty(reason, kept, "stop")) == MapFinishReason(FirstNonEmpty(reason, step, "stop"))
  {
    if step != "" {
      MapIdempotent(step);
      ReasonNeverEmpty(step);
    }
  }

  /** What the translator keeps as the reason of the last step. */
  predicate Keeps(kept: string, step: string) { kept == if step == "" then "" else MapFinishReason(step) }

  lemma OneError(p: Piece)
    ensures ErrorsIn([p]) == if p.Error? then [p.message] else []
  {
    assert [p][..0] == [];
  }

  lemma FinishErrors(st: State, before: seq<Event>, e: Event, mint: nat -> string)
    requires e.Finish? && Keeps(st.finishReason, StepReason(before))
    ensures ErrorsIn(Translate(st, e, mint).1) == ErrorAt(before, e)
  {
    SameFinish(StepReason(before), st.finishReason, e.reason);
    FinishReasonsKnown(MapFinishReason(FirstNonEmpty(e.reason, st.finishReason, "stop")));
    OneError(Translate(st, e, mint).1[0]);
  }

  lemma EventErrors(st: State, before: seq<Event>, e: Event, mint: nat -> string)
    requires Keeps(st.finishReason, StepReason(before))
    ensures ErrorsIn(Translate(st, e, mint).1) == ErrorAt(before, e)
  {
    if e.Finish? {
      FinishErrors(st, before, e, mint);
    } else if Translate(st, e, mint).1 != [] {
      OneError(Translate(st, e, mint).1[0]);
    }
  }

  lemma EventKeeps(st: State, before: seq<Event>, e: Event, mint: nat -> string)
    requires Keeps(st.finishReason, StepReason(before))
    ensures Keeps(Translate(st, e, mint).0.finishReason, StepReason(before + [e]))
  {
    assert (before + [e])[..|before|] == before;
  }

  lemma ErrorsStep(mid: State, pieces: seq<Piece>, before: seq<Event>, e: Event, mint: nat -> string)
    requires ErrorsIn(pieces) == Errors(before) && Keeps(mid.finishReason, StepReason(before))
    ensures var (st, more) := Translate(mid, e, mint);
            ErrorsIn(pieces + more) == Errors(before + [e]) && Keeps(st.finishReason, StepReason(before + [e]))
  {
    assert (before + [e])[..|before|] == before;
    EventErrors(mid, before, e, mint);
    EventKeeps(mid, before, e, mint);
    OnePiece(mid, e, mint);
    ErrorsInMore(pieces, Translate(mid, e, mint).1);
  }

  lemma TranslateMore(before: seq<Event>, e: Event, mint: nat -> string)
    ensures var (mid, pieces) := TranslateAll(START, before, mint);
            var (st, more) := Translate(mid, e, mint);
            TranslateAll(START, before + [e], mint) == (st, pieces + more)
  {
    assert (before + [e])[..|before|] == before;
  }

  /** Over every run the error objects sent are those of the error events and failed finishes, in order. */
  lemma {:induction false} ErrorsShown(events: seq<Event>, mint: nat -> string)
    ensures var (st, pieces) := TranslateAll(START, events, mint);
            && ErrorsIn(pieces) == Errors(events)
            && Keeps(st.finishReason, StepReason(events))
    decreases |events|
  {
    if events != [] {
      var before, e := events[..|events| - 1], events[|events| - 1];
      assert events == before + [e];
      ErrorsShown(before, mint);
      TranslateMore(before, e, mint);
      var (mid, pieces) := TranslateAll(START, before, mint);
      ErrorsStep(mid, pieces, before, e, mint);
    }
  }
}
