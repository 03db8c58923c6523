/**
 How the stream that ccStreamToChatReader delivers ends (commandcode.go), on the bytes a
 client gets: the events it finds in them, where the end marker is, and which trailer
 closes the stream.
 */
module StreamEnd {
  import opened Text
  import opened CommandCode
  import opened CommandCodeReader

  const DONE_LINE := "data: [DONE]"

  /** json.Marshal of a chunk is an object on one line. */
  ghost predicate Framed(codec: Codec) {
    forall p :: var s := codec.encode(p); OneLine(s) && s != "" && s[0] == '{'
  }

  /** And it tells the two errors of the reader from every other chunk. */
  ghost predicate TellsErrors(codec: Codec) {
    forall p, m :: m in {TRUNCATED, EMPTY} && codec.encode(p) == codec.encode(Error(m)) ==> p == Error(m)
  }

  // ----- the events in the bytes -----

  /** The lines of an event stream that are not blank; each event of this one has a single line. */
  function Solid(lines: seq<string>): seq<string> {
    if lines == [] then [] else (if lines[0] == "" then [] else [lines[0]]) + Solid(lines[1..])
  }

  /** What a client finds in the bytes it got. */
  function EventsIn(bytes: string): seq<string> { Solid(Lines(bytes).0) }

  function LineOf(codec: Codec, f: Frame): string {
    match f
    case Data(p) => "data: " + codec.encode(p)
    case Done => DONE_LINE
  }

  function LinesOf(codec: Codec, frames: seq<Frame>): (lines: seq<string>)
    ensures |lines| == |frames|
    ensures forall i :: 0 <= i < |frames| ==> lines[i] == LineOf(codec, frames[i])
  {
    seq(|frames|, i requires 0 <= i < |frames| => LineOf(codec, frames[i]))
  }

  lemma LineSolid(codec: Codec, f: Frame)
    requires Framed(codec)
    ensures OneLine(LineOf(codec, f)) && LineOf(codec, f) != ""
    ensures LineOf(codec, f) == DONE_LINE <==> f == Done
  {
    match f {
      case Data(p) =>
        var s := codec.encode(p);
        assert OneLine(s) && s != "" && s[0] == '{';
        assert LineOf(codec, f)[6] == '{' && DONE_LINE[6] == '[';
        assert forall k :: 6 <= k < 6 + |s| ==> LineOf(codec, f)[k] == s[k - 6];
      case Done =>
    }
  }

  lemma RenderedFront(codec: Codec, f: Frame, rest: string)
    ensures Render(codec, f) + rest == LineOf(codec, f) + "\n" + ("" + "\n" + rest)
  {
    match f {
      case Data(p) => EventText("data: ", codec.encode(p), rest);
      case Done => EventText(DONE_LINE, "", rest);
    }
  }

  lemma EventText(a: string, b: string, rest: string)
    ensures a + b + "\n\n" + rest == a + b + "\n" + ("" + "\n" + rest)
    ensures a + "" == a
  {
  }

  /** A client finds the frames in the bytes, one event each, and nothing unfinished. */
  lemma {:induction false} EventsFound(codec: Codec, frames: seq<Frame>)
    requires Framed(codec)
    ensures EventsIn(RenderAll(codec, frames)) == LinesOf(codec, frames) && Lines(RenderAll(codec, frames)).1 == ""
  {
    if frames != [] {
      EventsFound(codec, frames[1..]);
      MoreFound(codec, frames, RenderAll(codec, frames[1..]));
    }
  }

  lemma {:induction false} MoreFound(codec: Codec, frames: seq<Frame>, rest: string)
    requires Framed(codec) && frames != []
    requires EventsIn(rest) == LinesOf(codec, frames[1..]) && Lines(rest).1 == ""
    ensures EventsIn(Render(codec, frames[0]) + rest) == LinesOf(codec, frames)
    ensures Lines(Render(codec, frames[0]) + rest).1 == ""
  {
    EventFront(codec, frames[0], rest);
    assert LinesOf(codec, frames) == [LineOf(codec, frames[0])] + LinesOf(codec, frames[1..]);
  }

  lemma EventFront(codec: Codec, f: Frame, rest: string)
    requires Framed(codec)
    ensures EventsIn(Render(codec, f) + rest) == [LineOf(codec, f)] + EventsIn(rest)
    ensures Lines(Render(codec, f) + rest).1 == Lines(rest).1
  {
    var line := LineOf(codec, f);
    LineSolid(codec, f);
    RenderedFront(codec, f, rest);
    FirstLine(line, "" + "\n" + rest);
    FirstLine("", rest);
    SolidPair(line, Lines(rest).0);
  }

  lemma SolidPair(line: string, lines: seq<string>)
    requires line != ""
    ensures Solid([line] + ([""] + lines)) == [line] + Solid(lines)
  {
    assert ([line] + ([""] + lines))[1..] == [""] + lines;
    assert ([""] + lines)[1..] == lines;
  }

  // ----- the trailer -----

  /** The state behind all lines, and whether an unfinished last line still yields output. */
  function StateBehind(codec: Codec, text: string): State {
    var (lines, tail) := Lines(text);
    TranslateLine(codec, TranslateLines(codec, START, lines).0, TrimReturns(tail)).0
  }

  function TailPieces(codec: Codec, text: string): seq<Piece> {
    var (lines, tail) := Lines(text);
    TranslateLine(codec, TranslateLines(codec, START, lines).0, TrimReturns(tail)).1
  }

  lemma NothingOnBlank(codec: Codec, st: State)
    ensures TranslateLine(codec, st, "") == (st, [])
  {
  }

  /** What is emitted: the output of all lines, and a trailer unless the unfinished line yields output. */
  lemma EmittedParts(codec: Codec, text: string)
    ensures Emitted(codec, START, text) ==
            Frames(TranslateLines(codec, START, Lines(text).0).1 + TailPieces(codec, text)) +
            if TailPieces(codec, text) != [] then [] else [Trailer(StateBehind(codec, text))]
  {
    var (lines, tail) := Lines(text);
    var (end, pieces) := TranslateLines(codec, START, lines);
    var more := TailPieces(codec, text);
    NothingOnBlank(codec, end);
    FramesConcat(pieces, more);
    if more == [] {
      assert pieces + [] == pieces;
    }
    assert Frames(pieces) + Frames(more) + [] == Frames(pieces) + Frames(more);
  }

  /** `[DONE]` is in the bytes at most once, and last. */
  lemma DoneIsLast(codec: Codec, text: string)
    requires Framed(codec)
    ensures var found := EventsIn(Bytes(codec, START, text));
            found != [] && forall i :: 0 <= i < |found| - 1 ==> found[i] != DONE_LINE
  {
    var frames := Emitted(codec, START, text);
    EmittedParts(codec, text);
    EventsFound(codec, frames);
    forall i | 0 <= i < |frames| - 1
      ensures LineOf(codec, frames[i]) != DONE_LINE
    {
      LineSolid(codec, frames[i]);
    }
  }

  function Last(found: seq<string>): string
    requires found != []
  {
    found[|found| - 1]
  }

  function ErrorLine(codec: Codec, m: string): string { LineOf(codec, Data(Error(m))) }

  lemma ErrorTold(codec: Codec, f: Frame, m: string)
    requires Framed(codec) && TellsErrors(codec) && m in {TRUNCATED, EMPTY}
    ensures LineOf(codec, f) == ErrorLine(codec, m) <==> f == Data(Error(m))
  {
    LineSolid(codec, f);
    LineSolid(codec, Data(Error(m)));
    if f.Data? && LineOf(codec, f) == ErrorLine(codec, m) {
      assert LineOf(codec, f)[6..] == codec.encode(f.piece);
      assert ErrorLine(codec, m)[6..] == codec.encode(Error(m));
    }
  }

  /** The last frame: the trailer, or what the unfinished line yields. */
  lemma LastFrame(codec: Codec, text: string)
    ensures var frames, more := Emitted(codec, START, text), TailPieces(codec, text);
            frames != [] &&
            frames[|frames| - 1] == if more == [] then Trailer(StateBehind(codec, text)) else Data(more[|more| - 1])
  {
    EmittedParts(codec, text);
    LastOfParts(TranslateLines(codec, START, Lines(text).0).1, TailPieces(codec, text), Trailer(StateBehind(codec, text)));
  }

  lemma LastOfParts(pieces: seq<Piece>, more: seq<Piece>, trailer: Frame)
    ensures var frames := Frames(pieces + more) + if more != [] then [] else [trailer];
            frames != [] && frames[|frames| - 1] == if more == [] then trailer else Data(more[|more| - 1])
  {
  }

  /** A last line of the source that is an error with one of the reader's own two messages. */
  predicate TailSays(more: seq<Piece>, m: string) { more != [] && more[|more| - 1] == Error(m) }

  /** Which trailer the last line is, by the state behind the source and the output of its unfinished last line. */
  predicate TellsTrailer(codec: Codec, last: string, st: State, more: seq<Piece>) {
    && (last == DONE_LINE <==> more == [] && st.sawFinish && !NothingSent(st))
    && (last == ErrorLine(codec, TRUNCATED) <==> (more == [] && !st.sawFinish) || TailSays(more, TRUNCATED))
    && (last == ErrorLine(codec, EMPTY) <==> (more == [] && st.sawFinish && NothingSent(st)) || TailSays(more, EMPTY))
  }

  /**
   On the last event of the bytes, for every source: which of the three trailers it is, if
   any.  No trailer comes when an unfinished last line still yields output (but that output
   may read like one of the two errors).
   */
  lemma {:induction false} TrailerIff(codec: Codec, text: string)
    requires Framed(codec) && TellsErrors(codec)
    ensures EventsIn(Bytes(codec, START, text)) != []
    ensures TellsTrailer(codec, Last(EventsIn(Bytes(codec, START, text))), StateBehind(codec, text),
                         TailPieces(codec, text))
  {
    var f := LastLine(codec, text);
    FrameTells(codec, f, StateBehind(codec, text), TailPieces(codec, text));
  }

  /** The line of a last frame tells which trailer it is, if it is one. */
  lemma FrameTells(codec: Codec, f: Frame, st: State, more: seq<Piece>)
    requires Framed(codec) && TellsErrors(codec)
    requires f == if more == [] then Trailer(st) else Data(more[|more| - 1])
    ensures TellsTrailer(codec, LineOf(codec, f), st, more)
  {
    FrameRead(codec, f);
    TrailerRead(st);
  }

  lemma LastLine(codec: Codec, text: string) returns (f: Frame)
    requires Framed(codec)
    ensures var more := TailPieces(codec, text);
            f == if more == [] then Trailer(StateBehind(codec, text)) else Data(more[|more| - 1])
    ensures EventsIn(Bytes(codec, START, text)) != []
    ensures Last(EventsIn(Bytes(codec, START, text))) == LineOf(codec, f)
  {
    var frames := Emitted(codec, START, text);
    LastFrame(codec, text);
    EventsFound(codec, frames);
    f := frames[|frames| - 1];
  }

  /** The line of a frame tells the end marker and the two errors. */
  lemma FrameRead(codec: Codec, f: Frame)
    requires Framed(codec) && TellsErrors(codec)
    ensures LineOf(codec, f) == DONE_LINE <==> f == Done
    ensures LineOf(codec, f) == ErrorLine(codec, TRUNCATED) <==> f == Data(Error(TRUNCATED))
    ensures LineOf(codec, f) == ErrorLine(codec, EMPTY) <==> f == Data(Error(EMPTY))
  {
    LineSolid(codec, f);
    ErrorTold(codec, f, TRUNCATED);
    ErrorTold(codec, f, EMPTY);
  }

  lemma TrailerRead(st: State)
    ensures Trailer(st) == Done <==> st.sawFinish && !NothingSent(st)
    ensures Trailer(st) == Data(Error(TRUNCATED)) <==> !st.sawFinish
    ensures Trailer(st) == Data(Error(EMPTY)) <==> st.sawFinish && NothingSent(st)
  {
    ErrorsDiffer();
  }

  lemma ErrorsDiffer()
    ensures TRUNCATED != EMPTY
  {
    assert |EMPTY| == 49;
    assert |TRUNCATED| > 49;
  }

  /** A source that ends in a newline, or an empty one, ends in exactly one of the three. */
  lemma EndsWithTrailer(codec: Codec, text: string)
    requires Framed(codec) && TellsErrors(codec) && Lines(text).1 == ""
    ensures EventsIn(Bytes(codec, START, text)) != []
    ensures var last, st := Last(EventsIn(Bytes(codec, START, text))), TranslateLines(codec, START, Lines(text).0).0;
            && (last == DONE_LINE <==> st.sawFinish && !NothingSent(st))
            && (last == ErrorLine(codec, TRUNCATED) <==> !st.sawFinish)
            && (last == ErrorLine(codec, EMPTY) <==> st.sawFinish && NothingSent(st))
  {
    NothingOnBlank(codec, TranslateLines(codec, START, Lines(text).0).0);
    TrailerIff(codec, text);
  }

  // ----- what the last newline is worth -----

  lemma {:induction false} LinesWithNewline(text: string)
    ensures Lines(text + "\n") == (Lines(text).0 + [Lines(text).1], "")
  {
    if text == "" {
      FirstLine("", "");
      assert text + "\n" == "" + "\n" + "";
      var none: seq<string> := [];
      assert none + [""] == [""] && [""] + none == [""];
    } else {
      assert (text + "\n")[1..] == text[1..] + "\n" && (text + "\n")[0] == text[0];
      LinesWithNewline(text[1..]);
      var (lines, tail) := Lines(text[1..]);
      if text[0] == '\n' {
        assert [""] + (lines + [tail]) == [""] + lines + [tail];
      } else if lines == [] {
        assert lines + [tail] == [tail] && [tail][1..] == [];
        assert [] + [[text[0]] + tail] == [[text[0]] + tail] == [[text[0]] + tail] + [];
      } else {
        assert [[text[0]] + lines[0]] + (lines[1..] + [tail]) == [[text[0]] + lines[0]] + lines[1..] + [tail];
        assert (lines + [tail])[0] == lines[0] && (lines + [tail])[1..] == lines[1..] + [tail];
      }
    }
  }

  lemma Alone(codec: Codec, f: Frame)
    ensures RenderAll(codec, [f]) == Render(codec, f)
  {
    assert [f][1..] == [];
    assert Render(codec, f) + "" == Render(codec, f);
  }

  /** Ending the source with a newline adds exactly the trailer that an unfinished line with output had kept away. */
  lemma NewlineAddsTrailer(codec: Codec, text: string)
    ensures Bytes(codec, START, text + "\n") ==
            Bytes(codec, START, text) +
            if TailPieces(codec, text) == [] then "" else Render(codec, Trailer(StateBehind(codec, text)))
  {
    var (lines, tail) := Lines(text);
    var more := TailPieces(codec, text);
    var trailer := Trailer(StateBehind(codec, text));
    LinesWithNewline(text);
    TranslateLater(codec, START, lines, tail);
    NothingOnBlank(codec, StateBehind(codec, text));
    EmittedParts(codec, text);
    EmittedParts(codec, text + "\n");
    var all := Frames(TranslateLines(codec, START, lines).1 + more);
    assert TranslateLines(codec, START, lines).1 + more + [] == TranslateLines(codec, START, lines).1 + more;
    if more != [] {
      assert all + [] == all;
      RenderConcat(codec, all, [trailer]);
      Alone(codec, trailer);
    } else {
      assert Bytes(codec, START, text) + "" == Bytes(codec, START, text);
    }
  }

  // ----- what Read delivers -----

  /** Reading any source to its end, in any pieces: the events in the bytes that were delivered. */
  method ReadEvents(codec: Codec, src: seq<string>, sizes: nat -> nat) returns (all: string)
    requires Framed(codec) && TellsErrors(codec) && forall i :: sizes(i) > 0
    ensures var found := EventsIn(all);
            && found != [] && Lines(all).1 == ""
            && (forall i :: 0 <= i < |found| - 1 ==> found[i] != DONE_LINE)
            && (Lines(Joined(src)).1 == "" ==>
                  Last(found) in [DONE_LINE, ErrorLine(codec, TRUNCATED), ErrorLine(codec, EMPTY)])
    ensures all == Bytes(codec, START, Joined(src))
  {
    var r := new StreamReader(codec, src);
    all := r.ReadAll(sizes);
    var text := Joined(src);
    EventsFound(codec, Emitted(codec, START, text));
    DoneIsLast(codec, text);
    if Lines(text).1 == "" {
      EndsWithTrailer(codec, text);
    }
  }

  // ----- a stream without an end -----

  /** A line whose text is an event as it stands. */
  predicate EventLine(codec: Codec, line: string, e: Event) {
    OneLine(line) && Trimmed(line) && |line| >= 5 && line[0] == '{' && codec.parse(line) == Some(e)
  }

  lemma EventLineIs(codec: Codec, line: string, e: Event)
    requires EventLine(codec, line, e)
    ensures EventOn(codec, TrimReturns(line)) == Some(e) && TrimReturns(line) == line
  {
    TrimmedStays(line);
  }

  /** A delta on a line, and a finish on an unfinished one: the client gets both, and no end. */
  lemma FinishWithoutEnd(codec: Codec, line: string, last: string, text: string)
    requires Framed(codec) && TellsErrors(codec) && text != ""
    requires EventLine(codec, line, TextDelta(text, "")) && EventLine(codec, last, Finish("stop", None))
    ensures var source := line + "\n" + last;
            var found := EventsIn(Bytes(codec, START, source));
            && found == [LineOf(codec, Data(Content(true, text))), LineOf(codec, Data(End("stop", None)))]
            && Last(found) != DONE_LINE
            && Bytes(codec, START, source + "\n") == Bytes(codec, START, source) + Render(codec, Done)
  {
    var source := line + "\n" + last;
    TwoLines(codec, line, last, text);
    EmittedParts(codec, source);
    EventsFound(codec, Emitted(codec, START, source));
    LineSolid(codec, Data(End("stop", None)));
    NewlineAddsTrailer(codec, source);
  }

  lemma TwoLines(codec: Codec, line: string, last: string, text: string)
    requires text != ""
    requires EventLine(codec, line, TextDelta(text, "")) && EventLine(codec, last, Finish("stop", None))
    ensures var source := line + "\n" + last;
            && TranslateLines(codec, START, Lines(source).0).1 == [Content(true, text)]
            && TailPieces(codec, source) == [End("stop", None)]
            && Trailer(StateBehind(codec, source)) == Done
  {
    FirstLine(line, last);
    NoLines(last);
    assert [line] + [] == [line];
    OneTranslated(codec, line);
    DeltaTranslated(codec, line, text);
    EventLineIs(codec, last, Finish("stop", None));
    FinishTranslated(codec, START.(chunkIndex := 1), last);
  }

  lemma DeltaTranslated(codec: Codec, line: string, text: string)
    requires text != "" && EventLine(codec, line, TextDelta(text, ""))
    ensures TranslateLine(codec, START, TrimReturns(line)) == (START.(chunkIndex := 1), [Content(true, text)])
  {
    EventLineIs(codec, line, TextDelta(text, ""));
  }

  lemma FinishTranslated(codec: Codec, st: State, last: string)
    requires EventLine(codec, last, Finish("stop", None)) && st.usage.None?
    ensures TranslateLine(codec, st, TrimReturns(last)) == (st.(sawFinish := true), [End("stop", None)])
  {
    EventLineIs(codec, last, Finish("stop", None));
    StopStays();
  }

  lemma OneTranslated(codec: Codec, line: string)
    ensures TranslateLines(codec, START, [line]) == TranslateLine(codec, START, TrimReturns(line))
  {
    TranslateLater(codec, START, [], line);
    assert [] + [line] == [line];
    var pieces := TranslateLine(codec, START, TrimReturns(line)).1;
    assert [] + pieces == pieces;
  }

  const DELTA_LINE := "{\"type\":\"text-delta\",\"text\":\"hi\"}"
  const FINISH_LINE := "{\"type\":\"finish\",\"finishReason\":\"stop\"}"

  /** For one, the two lines as the upstream sends them. */
  lemma HiWithoutEnd(codec: Codec)
    requires Framed(codec) && TellsErrors(codec)
    requires codec.parse(DELTA_LINE) == Some(TextDelta("hi", "")) && codec.parse(FINISH_LINE) == Some(Finish("stop", None))
    ensures var found := EventsIn(Bytes(codec, START, DELTA_LINE + "\n" + FINISH_LINE));
            |found| == 2 && Last(found) != DONE_LINE
  {
    FinishWithoutEnd(codec, DELTA_LINE, FINISH_LINE, "hi");
  }
}
