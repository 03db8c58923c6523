/**
 Reading the assistant turn that appendAssistantMessage of api.go appends: by lookups it
 gives back the content, the reasoning and every named tool call it was built from.
 */
module Replay {
  import opened Text
  import opened JsonScan
  import opened JsonTree
  import opened JsonSplice
  import opened Rewrite
  import opened Session

  /** Decoding what was encoded gives it back. */
  ghost predicate Inverts(dec: Decoder, enc: Encoder) { forall s :: dec(Quote(enc(s))) == Some(s) }

  function TextAt(dec: Decoder, v: Value, path: seq<string>): string {
    match StringOf(dec, Inside(v, path)) case Some(s) => s case None => ""
  }

  /** A tool call as its reader sees it; a missing id or type reads as empty. */
  function CallRead(dec: Decoder, v: Value): ToolCall {
    ToolCall(TextAt(dec, v, ["id"]), TextAt(dec, v, ["type"]), TextAt(dec, v, ["function", "name"]),
             TextAt(dec, v, ["function", "arguments"]))
  }

  /** The calls whose name arrived. */
  function Named(calls: seq<ToolCall>): seq<ToolCall> {
    if calls == [] then [] else (if calls[0].name != "" then [calls[0]] else []) + Named(calls[1..])
  }

  lemma NotThere(ms: seq<Entry>, key: string)
    requires forall k :: 0 <= k < |ms| ==> ms[k].key != key
    ensures Lookup(ms, key) == None
  {
  }

  // ----- one call -----

  /** A required member and two optional ones, all of different names. */
  lemma OptionalRead(f: Entry, withId: bool, id: Entry, withKind: bool, kind: Entry)
    requires f.key != id.key && f.key != kind.key && id.key != kind.key
    ensures var ms := [f] + (if withId then [id] else []) + (if withKind then [kind] else []);
            && Lookup(ms, f.key) == Some(f.val)
            && Lookup(ms, id.key) == (if withId then Some(id.val) else None)
            && Lookup(ms, kind.key) == (if withKind then Some(kind.val) else None)
  {
    var ms := [f] + (if withId then [id] else []) + (if withKind then [kind] else []);
    LastIndexIs(ms, f.key, 0);
    if withId {
      LastIndexIs(ms, id.key, 1);
    } else {
      NotThere(ms, id.key);
    }
    if withKind {
      LastIndexIs(ms, kind.key, |ms| - 1);
    } else {
      NotThere(ms, kind.key);
    }
  }

  lemma CallMembers(enc: Encoder, call: ToolCall, fn: Value)
    requires fn == Obj("", [Field("arguments", Str(enc(call.arguments))), Field("name", Str(enc(call.name)))])
    ensures var v := CallValue(enc, call);
            && v.Obj? && Lookup(v.members, "function") == Some(fn)
            && Lookup(v.members, "id") == (if call.id == "" then None else Some(Str(enc(call.id))))
            && Lookup(v.members, "type") == (if call.kind == "" then None else Some(Str(enc(call.kind))))
  {
    OptionalRead(Field("function", fn), call.id != "", Field("id", Str(enc(call.id))),
                 call.kind != "", Field("type", Str(enc(call.kind))));
  }

  /** A call is read back as it was. */
  lemma CallReadsBack(dec: Decoder, enc: Encoder, call: ToolCall)
    requires Inverts(dec, enc)
    ensures CallRead(dec, CallValue(enc, call)) == call
  {
    var v := CallValue(enc, call);
    var fn := Obj("", [Field("arguments", Str(enc(call.arguments))), Field("name", Str(enc(call.name)))]);
    CallMembers(enc, call, fn);
    FieldsRead("arguments", Str(enc(call.arguments)), "name", Str(enc(call.name)));
    MemberRead(v, "id");
    MemberRead(v, "type");
    MemberRead(fn, "name");
    MemberRead(fn, "arguments");
    TwoInside(v, "function", fn, "name", Some(Str(enc(call.name))));
    TwoInside(v, "function", fn, "arguments", Some(Str(enc(call.arguments))));
  }

  lemma {:induction false} ReplayedReads(dec: Decoder, enc: Encoder, calls: seq<ToolCall>)
    requires Inverts(dec, enc)
    ensures |Replayed(enc, calls)| == |Named(calls)|
    ensures forall k :: 0 <= k < |Named(calls)| ==> CallRead(dec, Replayed(enc, calls)[k]) == Named(calls)[k]
  {
    if calls != [] {
      CallReadsBack(dec, enc, calls[0]);
      ReplayedReads(dec, enc, calls[1..]);
    }
  }

  // ----- the turn -----

  lemma TurnMembers(c: Entry, withR: bool, r: Entry, role: Entry, withT: bool, t: Entry)
    requires c.key != r.key && c.key != role.key && c.key != t.key
    requires r.key != role.key && r.key != t.key && role.key != t.key
    ensures var ms := [c] + (if withR then [r] else []) + [role] + (if withT then [t] else []);
            && Lookup(ms, c.key) == Some(c.val)
            && Lookup(ms, r.key) == (if withR then Some(r.val) else None)
            && Lookup(ms, role.key) == Some(role.val)
            && Lookup(ms, t.key) == (if withT then Some(t.val) else None)
  {
    var ms := [c] + (if withR then [r] else []) + [role] + (if withT then [t] else []);
    LastIndexIs(ms, c.key, 0);
    LastIndexIs(ms, role.key, if withR then 2 else 1);
    if withR {
      LastIndexIs(ms, r.key, 1);
    } else {
      NotThere(ms, r.key);
    }
    if withT {
      LastIndexIs(ms, t.key, |ms| - 1);
    } else {
      NotThere(ms, t.key);
    }
  }

  /** The calls of a turn: no member when none is named, else an array that reads back as the named ones. */
  ghost predicate CarriesCalls(dec: Decoder, ms: seq<Entry>, named: seq<ToolCall>) {
    match Lookup(ms, "tool_calls")
    case None => named == []
    case Some(v) =>
      v.Arr? && named != [] && |v.elems| == |named| &&
      forall k :: 0 <= k < |named| ==> CallRead(dec, v.elems[k].val) == named[k]
  }

  /** Every part of the turn is read back from it, and nothing that was not there. */
  lemma TurnReadsBack(dec: Decoder, enc: Encoder, content: string, calls: seq<ToolCall>, reasoning: string)
    requires Inverts(dec, enc)
    ensures var v := AssistantTurn(enc, content, calls, reasoning);
            && v.Obj? && Lookup(v.members, "role") == Some(Str("assistant"))
            && StringOf(dec, Lookup(v.members, "content")) == Some(content)
            && (reasoning == "" ==> Lookup(v.members, "reasoning_content") == None)
            && (reasoning != "" ==> StringOf(dec, Lookup(v.members, "reasoning_content")) == Some(reasoning))
            && CarriesCalls(dec, v.members, Named(calls))
  {
    var replayed := Replayed(enc, calls);
    ReplayedReads(dec, enc, calls);
    TurnMembers(Field("content", Str(enc(content))), reasoning != "", Field("reasoning_content", Str(enc(reasoning))),
                Field("role", Str("assistant")), replayed != [], Field("tool_calls", Arr("", FreshElems(replayed, ""))));
  }
}
