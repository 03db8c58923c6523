/**
 ccStreamToChatReader of commandcode.go: a reader that translates an event stream
 line by line, however its source and its caller cut it into pieces.
 */
module CommandCodeReader {
  import opened Text
  import opened Rewrite
  import opened CommandCode

  /** json.Unmarshal into an event with a type, json.Marshal of a chunk, and the ids made for calls without one. */
  datatype Codec = Codec(parse: string -> Option<Event>, encode: Piece -> string, mint: nat -> string)

  datatype Frame = Data(piece: Piece) | Done

  const TRUNCATED := "Upstream stream ended without a completion finish (no finish event) — response was truncated"
  const EMPTY := "Empty response from upstream (zero output tokens)"

  function Render(codec: Codec, f: Frame): string {
    match f
    case Data(p) => "data: " + codec.encode(p) + "\n\n"
    case Done => "data: [DONE]\n\n"
  }

  function RenderAll(codec: Codec, frames: seq<Frame>): string {
    if frames == [] then "" else Render(codec, frames[0]) + RenderAll(codec, frames[1..])
  }

  lemma {:induction false} RenderConcat(codec: Codec, a: seq<Frame>, b: seq<Frame>)
    ensures RenderAll(codec, a + b) == RenderAll(codec, a) + RenderAll(codec, b)
  {
    if a == [] {
      assert a + b == b;
    } else {
      assert (a + b)[1..] == a[1..] + b;
      RenderConcat(codec, a[1..], b);
      Associate(Render(codec, a[0]), RenderAll(codec, a[1..]), RenderAll(codec, b));
    }
  }

  lemma Associate(a: string, b: string, c: string)
    ensures a + (b + c) == a + b + c
  {
  }

  lemma RenderSolid(codec: Codec, frames: seq<Frame>)
    ensures RenderAll(codec, frames) == "" <==> frames == []
  {
  }

  function Frames(pieces: seq<Piece>): (frames: seq<Frame>)
    ensures |frames| == |pieces|
    ensures forall i :: 0 <= i < |pieces| ==> frames[i] == Data(pieces[i])
  {
    seq(|pieces|, i requires 0 <= i < |pieces| => Data(pieces[i]))
  }

  // ----- lines -----

  /** The complete lines of a text, and what follows the last newline. */
  function Lines(text: string): (r: (seq<string>, string))
    ensures forall c :: c in r.1 ==> c != '\n'
  {
    if text == "" then ([], "")
    else
      var (lines, tail) := Lines(text[1..]);
      if text[0] == '\n' then ([""] + lines, tail)
      else if lines == [] then ([], [text[0]] + tail)
      else ([[text[0]] + lines[0]] + lines[1..], tail)
  }

  predicate OneLine(s: string) { forall k :: 0 <= k < |s| ==> s[k] != '\n' }

  lemma {:induction false} NoLines(s: string)
    requires OneLine(s)
    ensures Lines(s) == ([], s)
  {
    if s != "" {
      NoLines(s[1..]);
      assert [s[0]] + s[1..] == s;
    }
  }

  lemma {:induction false} FirstLine(line: string, rest: string)
    requires OneLine(line)
    ensures Lines(line + "\n" + rest) == ([line] + Lines(rest).0, Lines(rest).1)
  {
    var text := line + "\n" + rest;
    if line == "" {
      assert text[1..] == rest;
    } else {
      assert text[1..] == line[1..] + "\n" + rest;
      FirstLine(line[1..], rest);
      assert [line[0]] + line[1..] == line;
    }
  }

  /** bytes.TrimRight(line, "\r") */
  function TrimReturns(line: string): string {
    if line != "" && line[|line| - 1] == '\r' then TrimReturns(line[..|line| - 1]) else line
  }

  lemma {:induction false} TrimDropsReturn(line: string)
    requires line != "" && line[|line| - 1] == '\r'
    ensures TrimSpace(line) == TrimSpace(line[..|line| - 1])
    decreases |line|
  {
    if IsGoSpace(line[0]) && |line| > 1 {
      assert line[1..][..|line| - 2] == line[..|line| - 1][1..];
      TrimDropsReturn(line[1..]);
    }
  }

  lemma {:induction false} TrimBoth(line: string)
    ensures TrimSpace(TrimReturns(line)) == TrimSpace(line)
    decreases |line|
  {
    if line != "" && line[|line| - 1] == '\r' {
      TrimBoth(line[..|line| - 1]);
      TrimDropsReturn(line);
    }
  }

  /** The event on a line, if there is one: shared by the translator and the aggregator. */
  function EventOn(codec: Codec, line: string): Option<Event> {
    var trimmed := TrimSpace(line);
    if trimmed == "" || trimmed == "[DONE]" || trimmed[0] == ':' then None
    else codec.parse(if |trimmed| >= 5 && trimmed[..5] == "data:" then TrimSpace(trimmed[5..]) else trimmed)
  }

  /** The forms of a line that is already trimmed: nothing, a comment, a data field, or an event as it is. */
  lemma LineForms(codec: Codec, line: string)
    requires TrimSpace(line) == line
    ensures line in {"", "[DONE]"} || ":" <= line ==> EventOn(codec, line) == None
    ensures "data:" <= line ==> EventOn(codec, line) == codec.parse(TrimSpace(line[5..]))
    ensures line !in {"", "[DONE]"} && !(":" <= line) && !("data:" <= line) ==> EventOn(codec, line) == codec.parse(line)
  {
    assert line != "" ==> (":" <= line <==> line[0] == ':');
    assert "data:" <= line ==> line[0] == "data:"[0];
  }

  /** Outer space around a line does not matter. */
  lemma LineTrimmed(codec: Codec, line: string)
    ensures TrimSpace(TrimSpace(line)) == TrimSpace(line)
    ensures EventOn(codec, line) == EventOn(codec, TrimSpace(line))
  {
    TrimIsTrimmed(line);
    TrimmedStays(TrimSpace(line));
  }

  function EventsOn(codec: Codec, lines: seq<string>): seq<Event> {
    if lines == [] then []
    else
      EventsOn(codec, lines[..|lines| - 1]) +
      match EventOn(codec, lines[|lines| - 1]) case None => [] case Some(e) => [e]
  }

  // ----- translating lines -----

  /** translateLine */
  function TranslateLine(codec: Codec, st: State, line: string): (State, seq<Piece>) {
    match EventOn(codec, line)
    case None => (st, [])
    case Some(e) => Translate(st, e, codec.mint)
  }

  function TranslateLines(codec: Codec, st: State, lines: seq<string>): (State, seq<Piece>)
    decreases |lines|
  {
    if lines == [] then (st, [])
    else
      var (mid, pieces) := TranslateLine(codec, st, TrimReturns(lines[0]));
      var (end, more) := TranslateLines(codec, mid, lines[1..]);
      (end, pieces + more)
  }

  /** What the end of the source adds: an error, or the end marker. */
  function Trailer(st: State): Frame {
    if !st.sawFinish then Data(Error(TRUNCATED))
    else if NothingSent(st) then Data(Error(EMPTY))
    else Done
  }

  /** The end of the source: an unfinished line that yields output stands in for the trailer. */
  function Ending(codec: Codec, st: State, tail: string): seq<Frame> {
    var last := TrimReturns(tail);
    if last == "" then [Trailer(st)]
    else
      var (end, pieces) := TranslateLine(codec, st, last);
      if pieces != [] then Frames(pieces) else [Trailer(end)]
  }

  /** Everything the reader ever emits for a source. */
  function Emitted(codec: Codec, st: State, text: string): seq<Frame> {
    var (lines, tail) := Lines(text);
    var (end, pieces) := TranslateLines(codec, st, lines);
    Frames(pieces) + Ending(codec, end, tail)
  }

  function Bytes(codec: Codec, st: State, text: string): string { RenderAll(codec, Emitted(codec, st, text)) }

  lemma FramesConcat(a: seq<Piece>, b: seq<Piece>)
    ensures Frames(a + b) == Frames(a) + Frames(b)
  {
  }

  /** One complete line is emitted, and the rest follows from the state behind it. */
  lemma EmitLine(codec: Codec, st: State, line: string, rest: string)
    requires OneLine(line)
    ensures var (mid, pieces) := TranslateLine(codec, st, TrimReturns(line));
            Emitted(codec, st, line + "\n" + rest) == Frames(pieces) + Emitted(codec, mid, rest)
  {
    FirstLine(line, rest);
    var (lines, tail) := Lines(rest);
    var (mid, pieces) := TranslateLine(codec, st, TrimReturns(line));
    var (end, more) := TranslateLines(codec, mid, lines);
    assert ([line] + lines)[1..] == lines;
    FramesConcat(pieces, more);
    Regroup(Frames(pieces), Frames(more), Ending(codec, end, tail));
  }

  lemma Regroup(a: seq<Frame>, b: seq<Frame>, c: seq<Frame>)
    ensures a + b + c == a + (b + c)
  {
  }

  lemma EmitTail(codec: Codec, st: State, tail: string)
    requires OneLine(tail)
    ensures Emitted(codec, st, tail) == Ending(codec, st, tail)
  {
    NoLines(tail);
    assert Frames([]) + Ending(codec, st, tail) == Ending(codec, st, tail);
  }

  // ----- how every stream ends -----

  lemma TrailerOnce(codec: Codec, st: State, tail: string)
    ensures Ending(codec, st, tail) != []
    ensures forall i :: 0 <= i < |Ending(codec, st, tail)| && Ending(codec, st, tail)[i] == Done ==>
              |Ending(codec, st, tail)| == 1
  {
  }

  // ----- the reader -----

  function Joined(chunks: seq<string>): string {
    if chunks == [] then "" else chunks[0] + Joined(chunks[1..])
  }

  lemma {:induction false} LineAt(text: string, idx: nat)
    requires Index(text, "\n") == idx
    ensures idx < |text| && OneLine(text[..idx]) && text == text[..idx] + "\n" + text[idx + 1..]
  {
    IndexFirst(text, "\n");
    forall k | 0 <= k < idx
      ensures text[k] != '\n'
    {
      assert !At(text, "\n", k);
      assert text[k..k + 1] == [text[k]];
    }
    assert text[idx..idx + 1] == [text[idx]];
  }

  class StreamReader {
    const codec: Codec
    var src: seq<string>
    var carry: string
    var pend: string
    var done: bool
    var state: State

    constructor (codec: Codec, src: seq<string>)
      ensures Valid() && this.codec == codec && Rest() == Bytes(codec, START, Joined(src))
    {
      this.codec := codec;
      this.src := src;
      carry, pend, done, state := "", "", false, START;
      new;
      assert "" + Joined(src) == Joined(src) && "" + Bytes(codec, START, Joined(src)) == Bytes(codec, START, Joined(src));
    }

    /** Between two reads of the source, what is carried over holds no newline. */
    ghost predicate Valid()
      reads this
    {
      OneLine(carry)
    }

    /** How often the source can still be asked. */
    ghost function Left(): nat
      reads this
    {
      |src| + if done then 0 else 1
    }

    /** All the bytes still to be delivered. */
    ghost function Rest(): string
      reads this
    {
      pend + if done then "" else Bytes(codec, state, carry + Joined(src))
    }

    /** The line loop of pump: complete lines leave the carry, their output is collected. */
    method DrainLines(ghost more: string) returns (out: string)
      modifies `carry, `state
      ensures OneLine(carry)
      ensures out + Bytes(codec, state, carry + more) == Bytes(codec, old(state), old(carry) + more)
    {
      out := "";
      assert "" + Bytes(codec, state, carry + more) == Bytes(codec, state, carry + more);
      while true
        invariant out + Bytes(codec, state, carry + more) == Bytes(codec, old(state), old(carry) + more)
        decreases |carry|
      {
        var idx := Index(carry, "\n");
        if idx < 0 {
          NoNewline(carry);
          return;
        }
        LineAt(carry, idx);
        var line := TrimReturns(carry[..idx]);
        OneDrained(codec, state, carry[..idx], carry[idx + 1..], more, out);
        assert carry == carry[..idx] + "\n" + carry[idx + 1..];
        carry := carry[idx + 1..];
        var (now, pieces) := TranslateLine(codec, state, line);
        state := now;
        out := out + RenderAll(codec, Frames(pieces));
      }
    }

    /** The end of the source, in pump. */
    method EndStream()
      requires pend == "" && !done && OneLine(carry)
      modifies `carry, `state, `done, `pend
      ensures done && OneLine(carry)
      ensures pend == RenderAll(codec, Ending(codec, old(state), old(carry))) && pend != ""
    {
      done := true;
      RenderSolid(codec, Ending(codec, state, carry));
      TrailerOnce(codec, state, carry);
      var tail := TrimReturns(carry);
      if tail != "" {
        carry := "";
        var (now, pieces) := TranslateLine(codec, state, tail);
        state := now;
        if pieces != [] {
          pend := RenderAll(codec, Frames(pieces));
          return;
        }
      }
      pend := RenderAll(codec, [Trailer(state)]);
    }

    /** A chunk of the source, in pump. */
    method TakeChunk()
      requires pend == "" && !done && src != []
      modifies `carry, `state, `src, `pend
      ensures OneLine(carry) && src == old(src[1..]) && Rest() == old(Rest())
    {
      JoinRegroup(carry, src[0], Joined(src[1..]));
      carry := carry + src[0];
      src := src[1..];
      pend := DrainLines(Joined(src));
    }

    /** pump: one chunk, or the end. */
    method Pump()
      requires Valid() && pend == "" && !done
      modifies this
      ensures Valid() && Rest() == old(Rest())
      ensures if old(src) == [] then done && src == [] && pend != "" else src == old(src[1..]) && !done
    {
      if src != [] {
        TakeChunk();
      } else {
        AtEnd(codec, state, carry);
        EndStream();
      }
    }

    /** Read: the next bytes, at most `p` of them; eof once everything is delivered. */
    method Read(p: nat) returns (out: string, eof: bool)
      requires Valid()
      modifies this
      ensures Valid() && out + Rest() == old(Rest()) && |out| <= p
      ensures Left() < old(Left()) || (Left() == old(Left()) && |pend| + |out| == old(|pend|))
      ensures eof ==> out == "" && Rest() == ""
      ensures !eof && p > 0 ==> out != ""
    {
      while pend == ""
        invariant Valid() && Rest() == old(Rest())
        invariant Left() < old(Left()) || (Left() == old(Left()) && pend == old(pend))
        decreases Left()
      {
        if done {
          return "", true;
        }
        Pump();
      }
      var n := if p < |pend| then p else |pend|;
      out, eof := pend[..n], false;
      Cut(pend, n, if done then "" else Bytes(codec, state, carry + Joined(src)));
      pend := pend[n..];
    }

    /** Reading to the end, with any buffer sizes. */
    method ReadAll(sizes: nat -> nat) returns (all: string)
      requires Valid() && forall i :: sizes(i) > 0
      modifies this
      ensures all == old(Rest())
    {
      all := "";
      var i := 0;
      while true
        invariant Valid() && all + Rest() == old(Rest())
        decreases Left(), |pend|
      {
        var out, eof := Read(sizes(i));
        if eof {
          return;
        }
        Associate(all, out, Rest());
        all := all + out;
        i := i + 1;
      }
    }
  }

  lemma JoinRegroup(a: string, b: string, c: string)
    ensures a + b + c == a + (b + c)
  {
  }

  lemma Cut(s: string, n: nat, rest: string)
    requires n <= |s|
    ensures s[..n] + (s[n..] + rest) == s + rest
  {
  }

  lemma AtEnd(codec: Codec, st: State, carry: string)
    ensures OneLine(carry) ==> Bytes(codec, st, carry + Joined([])) == RenderAll(codec, Ending(codec, st, carry))
  {
    assert carry + Joined([]) == carry;
    if OneLine(carry) {
      EmitTail(codec, st, carry);
    }
  }

  lemma NoNewline(s: string)
    requires Index(s, "\n") < 0
    ensures OneLine(s)
  {
    IndexOfChar(s, '\n');
  }

  lemma OneDrained(codec: Codec, st: State, line: string, rest: string, more: string, out: string)
    requires OneLine(line)
    ensures var (now, pieces) := TranslateLine(codec, st, TrimReturns(line));
            out + Bytes(codec, st, line + "\n" + rest + more) ==
            out + RenderAll(codec, Frames(pieces)) + Bytes(codec, now, rest + more)
  {
    var (now, pieces) := TranslateLine(codec, st, TrimReturns(line));
    assert line + "\n" + rest + more == line + "\n" + (rest + more);
    EmitLine(codec, st, line, rest + more);
    RenderConcat(codec, Frames(pieces), Emitted(codec, now, rest + more));
    Associate(out, RenderAll(codec, Frames(pieces)), Bytes(codec, now, rest + more));
  }

  // ----- what is delivered -----

  /**
   The bytes delivered are a function of the bytes of the source: how the source
   cuts them, and which buffers the caller passes, makes no difference.
   */
  method ReadTwice(codec: Codec, a: seq<string>, b: seq<string>, sizesA: nat -> nat, sizesB: nat -> nat)
    returns (x: string, y: string)
    requires Joined(a) == Joined(b)
    requires (forall i :: sizesA(i) > 0) && (forall i :: sizesB(i) > 0)
    ensures x == y == Bytes(codec, START, Joined(a))
  {
    var r := new StreamReader(codec, a);
    var s := new StreamReader(codec, b);
    x := r.ReadAll(sizesA);
    y := s.ReadAll(sizesB);
  }

  // ----- streamed and folded -----

  lemma {:induction false} TranslateLater(codec: Codec, st: State, lines: seq<string>, line: string)
    ensures var (mid, pieces) := TranslateLines(codec, st, lines);
            var (end, more) := TranslateLine(codec, mid, TrimReturns(line));
            TranslateLines(codec, st, lines + [line]) == (end, pieces + more)
    decreases |lines|
  {
    if lines == [] {
      assert [line][1..] == [] && [] + [line] == [line];
      var (end, more) := TranslateLine(codec, st, TrimReturns(line));
      assert more + [] == more && [] + more == more;
    } else {
      var (one, first) := TranslateLine(codec, st, TrimReturns(lines[0]));
      assert (lines + [line])[1..] == lines[1..] + [line];
      TranslateLater(codec, one, lines[1..], line);
      var (mid, pieces) := TranslateLines(codec, one, lines[1..]);
      var (end, more) := TranslateLine(codec, mid, TrimReturns(line));
      assert first + (pieces + more) == first + pieces + more;
    }
  }

  /** Translating lines is translating their events. */
  lemma {:induction false} LinesAreEvents(codec: Codec, lines: seq<string>)
    ensures TranslateLines(codec, START, lines) == TranslateAll(START, EventsOn(codec, lines), codec.mint)
    decreases |lines|
  {
    if lines != [] {
      var init, line := lines[..|lines| - 1], lines[|lines| - 1];
      LinesAreEvents(codec, init);
      TranslateLater(codec, START, init, line);
      assert init + [line] == lines;
      TrimBoth(line);
      EventsMore(codec, init, line);
    }
  }

  lemma EventsMore(codec: Codec, init: seq<string>, line: string)
    ensures var (mid, pieces) := TranslateAll(START, EventsOn(codec, init), codec.mint);
            var (end, more) := TranslateLine(codec, mid, line);
            TranslateAll(START, EventsOn(codec, init + [line]), codec.mint) == (end, pieces + more)
  {
    assert (init + [line])[..|init|] == init;
    var events := EventsOn(codec, init);
    match EventOn(codec, line) {
      case None =>
        assert events + [] == events;
        var pieces := TranslateAll(START, events, codec.mint).1;
        assert pieces + [] == pieces;
      case Some(e) =>
        assert (events + [e])[..|events|] == events;
    }
  }

  /** ccAggregateStream, on the bytes of a body. */
  function AggregateBody(codec: Codec, body: string): Aggregated {
    Aggregate(EventsOn(codec, BodyLines(body)), codec.mint)
  }

  /** The pieces among what was emitted. */
  function PiecesOf(frames: seq<Frame>): seq<Piece> {
    if frames == [] then []
    else (if frames[0].Data? then [frames[0].piece] else []) + PiecesOf(frames[1..])
  }

  lemma {:induction false} PiecesBack(pieces: seq<Piece>)
    ensures PiecesOf(Frames(pieces)) == pieces && PiecesOf(Frames(pieces) + [Done]) == pieces
  {
    if pieces == [] {
      assert Frames([]) + [Done] == [Done];
      assert [Done][1..] == [];
    } else {
      assert Frames(pieces)[1..] == Frames(pieces[1..]);
      assert (Frames(pieces) + [Done])[1..] == Frames(pieces[1..]) + [Done];
      PiecesBack(pieces[1..]);
    }
  }

  /** The lines of a body as the aggregator scans them: an unfinished last one counts. */
  function BodyLines(body: string): seq<string> {
    var (lines, tail) := Lines(body);
    lines + if tail == "" then [] else [tail]
  }

  /** An unfinished last line without an event adds nothing to either side. */
  lemma QuietTail(codec: Codec, body: string)
    requires EventOn(codec, Lines(body).1).None?
    ensures EventsOn(codec, BodyLines(body)) == EventsOn(codec, Lines(body).0)
    ensures var (end, pieces) := TranslateLines(codec, START, Lines(body).0);
            Emitted(codec, START, body) == Frames(pieces) + [Trailer(end)]
  {
    var (lines, tail) := Lines(body);
    TrimBoth(tail);
    if tail == "" {
      assert lines + [] == lines;
    } else {
      assert (lines + [tail])[..|lines|] == lines;
      assert EventsOn(codec, lines) + [] == EventsOn(codec, lines);
    }
  }

  /** An unfinished last line with an event is translated like any other, and if that yields output nothing follows. */
  lemma LoudTail(codec: Codec, body: string)
    requires EventOn(codec, Lines(body).1).Some?
    ensures var all := TranslateLines(codec, START, BodyLines(body)).1;
            var (end, pieces) := TranslateLines(codec, START, Lines(body).0);
            var more := TranslateLine(codec, end, TrimReturns(Lines(body).1)).1;
            all == pieces + more && (more != [] ==> Emitted(codec, START, body) == Frames(all))
  {
    var (lines, tail) := Lines(body);
    TrimBoth(tail);
    var (end, pieces) := TranslateLines(codec, START, lines);
    TranslateLater(codec, START, lines, tail);
    FramesConcat(pieces, TranslateLine(codec, end, TrimReturns(tail)).1);
  }

  lemma LastEvent(codec: Codec, lines: seq<string>, line: string, events: seq<Event>, last: Event)
    requires EventOn(codec, line).Some? && EventsOn(codec, lines + [line]) == events + [last]
    ensures EventOn(codec, line) == Some(last)
  {
    assert (lines + [line])[..|lines|] == lines;
    var e := EventOn(codec, line).value;
    assert (EventsOn(codec, lines) + [e])[|EventsOn(codec, lines)|] == e;
    assert (events + [last])[|events|] == last;
  }

  lemma FinishSpeaks(codec: Codec, st: State, line: string)
    requires EventOn(codec, line).Some? && EventOn(codec, line).value.Finish?
    ensures TranslateLine(codec, st, TrimReturns(line)).1 != []
  {
    TrimBoth(line);
  }

  /**
   For every body with one finish as its last event and no error: when the aggregator
   succeeds with a reason that is not the retry marker, the deltas of the stream add up
   to the same completion, and the end marker follows exactly when the finish is not on
   an unfinished last line.
   */
  lemma StreamMatchesBody(codec: Codec, body: string, events: seq<Event>, last: Event)
    requires EventsOn(codec, BodyLines(body)) == events + [last]
    requires NoEndYet(events) && last.Finish?
    requires var whole := AggregateBody(codec, body);
             whole.Whole? && whole.completion.reason != "upstream_error"
    ensures var frames := Emitted(codec, START, body);
            && SameCompletion(ReceiveAll(PiecesOf(frames)), AggregateBody(codec, body).completion)
            && frames != [] && (frames[|frames| - 1] == Done <==> EventOn(codec, Lines(body).1).None?)
  {
    var lines := BodyLines(body);
    var pieces := TranslateLines(codec, START, lines).1;
    LinesAreEvents(codec, lines);
    StreamEqualsAggregate(events, last, codec.mint);
    PiecesBack(pieces);
    if EventOn(codec, Lines(body).1).None? {
      QuietTail(codec, body);
      LinesAreEvents(codec, Lines(body).0);
      EmptyGuards(events, last, codec.mint);
      FinishSeen(events, last, codec.mint);
    } else {
      LastEvent(codec, Lines(body).0, Lines(body).1, events, last);
      FinishSpeaks(codec, TranslateLines(codec, START, Lines(body).0).0, Lines(body).1);
      LoudTail(codec, body);
    }
  }

  lemma FinishSeen(events: seq<Event>, last: Event, mint: nat -> string)
    requires last.Finish?
    ensures TranslateAll(START, events + [last], mint).0.sawFinish
  {
    assert (events + [last])[..|events|] == events;
  }
}
