/**
 Which conversations share a session: the exact condition under which bodySessionID
 of api.go gives two bodies one identity, and bodies of different conversations that
 meet it.
 */
module Sharing {
  import opened Text
  import opened JsonScan
  import opened JsonTree
  import opened JsonSplice
  import opened JsonSqueeze
  import opened Rewrite
  import opened Session
  import opened FirstTurns

  predicate NoNul(s: string) { forall k :: 0 <= k < |s| ==> s[k] != '\0' }

  // ----- what is hashed behind the model -----

  /** The anchored contents, in order. */
  function Contents(a: Anchors): seq<string> {
    (if a.system.Some? then [a.system.value] else []) + (if a.user.Some? then [a.user.value] else [])
  }

  /** The first system and user contents, or without any the text of all messages. */
  function PartsOf(dec: Decoder, d: Doc): (parts: seq<string>)
    ensures 1 <= |parts| <= 2
  {
    var messages := Lookup(d.members, "messages");
    var a := AnchorsOf(dec, messages);
    if a.Any() then Contents(a) else [MessagesText(messages)]
  }

  /** The model, then each part behind a zero byte. */
  function Behind(model: string, parts: seq<string>): string {
    if parts == [] then model else Behind(model, parts[..|parts| - 1]) + "\0" + parts[|parts| - 1]
  }

  lemma OneBehind(model: string, p: string)
    ensures Behind(model, [p]) == model + "\0" + p
  {
    assert [p][..0] == [];
  }

  lemma TwoBehind(model: string, p: string, q: string)
    ensures Behind(model, [p, q]) == model + "\0" + p + "\0" + q
  {
    assert [p, q][..1] == [p];
    OneBehind(model, p);
  }

  lemma HashedParts(a: Anchors, model: string)
    requires a.Any()
    ensures a.Hashed(model) == Behind(model, Contents(a))
  {
    if a.Both() {
      TwoBehind(model, a.system.value, a.user.value);
      Joined(model, "\0" + a.system.value, "\0", a.user.value);
    } else {
      OneBehind(model, Contents(a)[0]);
      Joined(model, "", "\0", Contents(a)[0]);
    }
    Joined(model, "", "\0", if a.system.Some? then a.system.value else "");
  }

  lemma Joined(a: string, b: string, c: string, d: string)
    ensures a + b + (c + d) == a + b + c + d
    ensures a + "" + (c + d) == a + c + d && a + (c + d) == a + c + d && a + (c + d) + "" == a + c + d
  {
  }

  /** The hashed bytes of a body that names a model. */
  lemma SessionParts(dec: Decoder, d: Doc)
    requires ModelOf(dec, d).Some?
    ensures SessionOf(dec, d) == Context(Behind(ModelOf(dec, d).value, PartsOf(dec, d)))
  {
    var model, messages := ModelOf(dec, d).value, Lookup(d.members, "messages");
    var a := AnchorsOf(dec, messages);
    if a.Any() {
      HashedParts(a, model);
    } else {
      OneBehind(model, MessagesText(messages));
    }
  }

  // ----- without a zero byte in the body there is none in the parts -----

  lemma {:induction false} TrimClear(s: string)
    requires NoNul(s)
    ensures NoNul(TrimSpace(s))
    decreases |s|
  {
    if s != "" {
      if IsGoSpace(s[0]) {
        TrimClear(s[1..]);
      } else if IsGoSpace(s[|s| - 1]) {
        TrimClear(s[..|s| - 1]);
      }
    }
  }

  lemma {:induction false} SqueezeClear(raw: string, inString: bool, escaped: bool)
    requires NoNul(raw)
    ensures NoNul(Squeeze(raw, inString, escaped))
    decreases |raw|
  {
    if raw != "" {
      var c, rest := raw[0], raw[1..];
      SqueezeClear(rest, true, false);
      SqueezeClear(rest, true, true);
      SqueezeClear(rest, c != '"', false);
      SqueezeClear(rest, false, false);
    }
  }

  predicate Clear(ms: seq<Message>) {
    forall k :: 0 <= k < |ms| && ms[k].Message? && ms[k].content.Some? ==> NoNul(ms[k].content.value)
  }

  lemma ReadClear(dec: Decoder, b: string, elem: Span)
    requires NoNul(b)
    ensures Clear([ReadMessage(dec, b, elem)])
  {
    match ObjectAt(b, elem) {
      case None =>
      case Some(m) =>
        match Find(m.spans, "content") {
          case None =>
          case Some(span) =>
            if span.start <= span.end <= |b| {
              TrimClear(b[span.start..span.end]);
            }
        }
    }
  }

  lemma MessagesClear(dec: Decoder, b: string, elems: seq<Span>)
    requires NoNul(b)
    ensures Clear(ReadMessages(dec, b, elems))
  {
    forall k | 0 <= k < |elems|
      ensures Clear([ReadMessages(dec, b, elems)[k]])
    {
      ReadClear(dec, b, elems[k]);
    }
    assert forall k :: 0 <= k < |elems| ==> [ReadMessages(dec, b, elems)[k]][0] == ReadMessages(dec, b, elems)[k];
  }

  predicate ClearAnchors(a: Anchors) {
    (a.system.Some? ==> NoNul(a.system.value)) && (a.user.Some? ==> NoNul(a.user.value))
  }

  lemma {:induction false} AnchorsClear(ms: seq<Message>, seen: Anchors)
    requires Clear(ms) && ClearAnchors(seen)
    ensures ClearAnchors(SessionAnchors(ms, seen))
  {
    if ms != [] && ms[0].Message? {
      if ms[0].content.None? {
        AnchorsClear(ms[1..], seen);
      } else {
        AnchorsClear(ms[1..], seen.Note(ms[0].role, ms[0].content.value));
      }
    }
  }

  predicate ClearParts(parts: seq<string>) { forall k :: 0 <= k < |parts| ==> NoNul(parts[k]) }

  lemma PartsClear(dec: Decoder, d: Doc)
    requires WFDoc(d) && PlainKeys(d.members) && NoNul(PrintDoc(d))
    ensures ClearParts(PartsOf(dec, d))
  {
    match LastIndex(d.members, "messages") {
      case None =>
      case Some(k) =>
        var b, span, v := PrintDoc(d), DocSpan(d, k), d.members[k].val;
        MessagesMemberRead(dec, d, k);
        HashedText(v);
        SqueezeClear(b[span.start..span.end], false, false);
        if v.Arr? {
          TurnsClear(dec, d, k);
          ContentsClear(MessagesOf(dec, v.elems));
        }
    }
  }

  lemma TurnsClear(dec: Decoder, d: Doc, k: nat)
    requires WFDoc(d) && NoNul(PrintDoc(d)) && k < |d.members| && d.members[k].val.Arr?
    ensures Clear(MessagesOf(dec, d.members[k].val.elems))
  {
    MessagesMemberRead(dec, d, k);
    MessagesClear(dec, PrintDoc(d), ArrayElements(PrintDoc(d), DocSpan(d, k)).value);
  }

  lemma ContentsClear(ms: seq<Message>)
    requires Clear(ms)
    ensures ClearParts(Contents(SessionAnchors(ms, NONE)))
  {
    AnchorsClear(ms, NONE);
  }

  // ----- when the hashed bytes agree -----

  lemma SplitAtLastNul(x: string, p: string, y: string, q: string)
    requires NoNul(p) && NoNul(q)
    ensures x + "\0" + p == y + "\0" + q <==> x == y && p == q
  {
    var s, t := x + "\0" + p, y + "\0" + q;
    assert s[|x|] == '\0' && t[|y|] == '\0';
    assert (forall k :: |x| < k < |s| ==> s[k] == p[k - |x| - 1]) && (forall k :: |y| < k < |t| ==> t[k] == q[k - |y| - 1]);
    assert (forall k :: |x| < k < |s| ==> s[k] != '\0') && (forall k :: |y| < k < |t| ==> t[k] != '\0');
    if s == t {
      assert s[..|x|] == x && t[..|y|] == y && s[|x| + 1..] == p && t[|y| + 1..] == q;
    }
  }

  /** The name of the one model is the name of the other, a zero byte and its first content. */
  predicate Absorbs(m: string, ps: seq<string>, n: string, qs: seq<string>) {
    |ps| == 1 && |qs| == 2 && m == n + "\0" + qs[0] && ps[0] == qs[1]
  }

  predicate SameHashed(m: string, ps: seq<string>, n: string, qs: seq<string>) {
    (m == n && ps == qs) || Absorbs(m, ps, n, qs) || Absorbs(n, qs, m, ps)
  }

  lemma BehindSplits(m: string, ps: seq<string>)
    requires 1 <= |ps| <= 2
    ensures Behind(m, ps) == (if |ps| == 1 then m else m + "\0" + ps[0]) + "\0" + ps[|ps| - 1]
  {
    if |ps| == 1 {
      assert ps == [ps[0]];
      OneBehind(m, ps[0]);
    } else {
      assert ps == [ps[0], ps[1]];
      TwoBehind(m, ps[0], ps[1]);
    }
  }

  lemma BehindDetermines(m: string, ps: seq<string>, n: string, qs: seq<string>)
    requires 1 <= |ps| <= 2 && 1 <= |qs| <= 2 && ClearParts(ps) && ClearParts(qs)
    ensures Behind(m, ps) == Behind(n, qs) <==> SameHashed(m, ps, n, qs)
  {
    var x := if |ps| == 1 then m else m + "\0" + ps[0];
    var y := if |qs| == 1 then n else n + "\0" + qs[0];
    BehindSplits(m, ps);
    BehindSplits(n, qs);
    SplitAtLastNul(x, ps[|ps| - 1], y, qs[|qs| - 1]);
    if |ps| == 2 == |qs| {
      SplitAtLastNul(m, ps[0], n, qs[0]);
    }
    SameParts(ps, qs);
  }

  lemma SameParts(ps: seq<string>, qs: seq<string>)
    requires 1 <= |ps| <= 2 && 1 <= |qs| <= 2
    ensures ps == qs <==> |ps| == |qs| && ps[0] == qs[0] && ps[|ps| - 1] == qs[|qs| - 1]
  {
  }

  /**
   For all bodies the scanner accepts (a zero byte is not JSON text): two of them that name
   a model share a session exactly when the model and the hashed parts agree, or one model
   name takes in a zero byte and the first content of the other; two that do not name one,
   exactly when they are the same bytes; and never one of each.
   */
  lemma SessionsShared(dec: Decoder, d: Doc, e: Doc)
    requires WFDoc(d) && PlainKeys(d.members) && NoNul(PrintDoc(d))
    requires WFDoc(e) && PlainKeys(e.members) && NoNul(PrintDoc(e))
    ensures BodySessionID(dec, PrintDoc(d)) == BodySessionID(dec, PrintDoc(e)) <==>
            match (ModelOf(dec, d), ModelOf(dec, e))
            case (Some(m), Some(n)) => SameHashed(m, PartsOf(dec, d), n, PartsOf(dec, e))
            case (None, None) => PrintDoc(d) == PrintDoc(e)
            case _ => false
  {
    SessionRead(dec, d);
    SessionRead(dec, e);
    PartsClear(dec, d);
    PartsClear(dec, e);
    if ModelOf(dec, d).Some? {
      SessionParts(dec, d);
    }
    if ModelOf(dec, e).Some? {
      SessionParts(dec, e);
    }
    if ModelOf(dec, d).Some? && ModelOf(dec, e).Some? {
      BehindDetermines(ModelOf(dec, d).value, PartsOf(dec, d), ModelOf(dec, e).value, PartsOf(dec, e));
    }
  }

  /** When neither name holds a zero byte, exactly when model and parts agree. */
  lemma PlainNamesShared(dec: Decoder, d: Doc, e: Doc)
    requires WFDoc(d) && PlainKeys(d.members) && NoNul(PrintDoc(d))
    requires WFDoc(e) && PlainKeys(e.members) && NoNul(PrintDoc(e))
    requires ModelOf(dec, d).Some? && ModelOf(dec, e).Some?
    requires NoNul(ModelOf(dec, d).value) && NoNul(ModelOf(dec, e).value)
    ensures BodySessionID(dec, PrintDoc(d)) == BodySessionID(dec, PrintDoc(e)) <==>
            ModelOf(dec, d) == ModelOf(dec, e) && PartsOf(dec, d) == PartsOf(dec, e)
  {
    SessionsShared(dec, d, e);
    NulInside(ModelOf(dec, e).value, PartsOf(dec, e)[0]);
    NulInside(ModelOf(dec, d).value, PartsOf(dec, d)[0]);
  }

  lemma NulInside(n: string, p: string)
    ensures !NoNul(n + "\0" + p)
  {
    assert (n + "\0" + p)[|n|] == '\0';
  }

  // ----- different conversations in one session -----

  /** Two different bodies, both accepted, with one identity. */
  predicate Share(dec: Decoder, d: Doc, e: Doc) {
    && WFDoc(d) && PlainKeys(d.members) && WFDoc(e) && PlainKeys(e.members)
    && PrintDoc(d) != PrintDoc(e) && BodySessionID(dec, PrintDoc(d)) == BodySessionID(dec, PrintDoc(e))
  }

  function Turn(role: string, content: Value): Value { Obj("", [Field("role", Str(role)), Field("content", content)]) }

  /** {"model":"...","messages":[...]} */
  function Talk(model: string, turns: seq<Value>): Doc {
    Doc("", "", [Field("model", Str(model)), Field("messages", Arr("", FreshElems(turns, "")))], "")
  }

  lemma SystemWord() ensures StringBody("system") { PlainString("system"); }
  lemma UserWord() ensures StringBody("user") { PlainString("user"); }

  /** The names the source looks for are read as they are. */
  predicate ReadsRoles(dec: Decoder) {
    dec(Quote("system")) == Some("system") && dec(Quote("user")) == Some("user")
  }

  lemma TurnIs(dec: Decoder, role: string, content: Value)
    requires StringBody(role) && WF(content) && dec(Quote(role)) == Some(role)
    ensures WF(Turn(role, content))
    ensures MessageOf(dec, Turn(role, content)) == Message(role, Some(TrimSpace(Print(content))))
  {
    RoleWord();
    ContentWord();
    TwoMembers("role", Str(role), "content", content);
  }

  lemma TalkIs(dec: Decoder, raw: string, model: string, turns: seq<Value>)
    requires StringBody(raw) && dec(Quote(raw)) == Some(model) && model != ""
    requires forall k :: 0 <= k < |turns| ==> WF(turns[k])
    ensures var d := Talk(raw, turns);
            && WFDoc(d) && PlainKeys(d.members) && ModelOf(dec, d) == Some(model)
            && Lookup(d.members, "messages") == Some(Arr("", FreshElems(turns, "")))
  {
    ModelWord();
    MessagesWord();
    FreshArrayWF(turns);
    TwoMembers("model", Str(raw), "messages", Arr("", FreshElems(turns, "")));
  }

  lemma TwoMembers(k: string, v: Value, l: string, w: Value)
    requires StringBody(k) && StringBody(l) && '\\' !in k && '\\' !in l && k != l && WF(v) && WF(w)
    ensures var ms := [Field(k, v), Field(l, w)];
            WF(Obj("", ms)) && PlainKeys(ms) && Lookup(ms, k) == Some(v) && Lookup(ms, l) == Some(w)
  {
    var ms := [Field(k, v), Field(l, w)];
    FieldGood(k, v);
    FieldGood(l, w);
    TwoFields(ms[0], ms[1]);
    KeysPlain(ms);
    LastIndexIs(ms, k, 0);
    LastIndexIs(ms, l, 1);
  }

  /** One text is read in one way, so bodies whose messages read differently are different. */
  lemma SameMessages(dec: Decoder, d: Doc, e: Doc)
    requires WFDoc(d) && PlainKeys(d.members) && WFDoc(e) && PlainKeys(e.members) && PrintDoc(d) == PrintDoc(e)
    requires var m, n := Lookup(d.members, "messages"), Lookup(e.members, "messages");
             m.Some? && m.value.Arr? && n.Some? && n.value.Arr?
    ensures MessagesOf(dec, Lookup(d.members, "messages").value.elems) ==
            MessagesOf(dec, Lookup(e.members, "messages").value.elems)
  {
    DocLookup(d, "messages");
    DocLookup(e, "messages");
    MessagesMemberRead(dec, d, LastIndex(d.members, "messages").value);
    MessagesMemberRead(dec, e, LastIndex(e.members, "messages").value);
  }

  lemma OneMessage(dec: Decoder, turn: Value)
    ensures MessagesOf(dec, FreshElems([turn], "")) == [MessageOf(dec, turn)]
  {
  }

  lemma TwoMessages(dec: Decoder, first: Value, second: Value)
    ensures MessagesOf(dec, FreshElems([first, second], "")) == [MessageOf(dec, first), MessageOf(dec, second)]
  {
  }

  lemma OneAnchor(role: string, text: string)
    requires role == "system" || role == "user"
    ensures Contents(SessionAnchors([Message(role, Some(text))], NONE)) == [text]
    ensures SessionAnchors([Message(role, Some(text))], NONE).Any()
  {
    assert [Message(role, Some(text))][1..] == [];
  }

  lemma TwoAnchors(s: string, u: string)
    ensures Contents(SessionAnchors([Message("system", Some(s)), Message("user", Some(u))], NONE)) == [s, u]
    ensures SessionAnchors([Message("system", Some(s)), Message("user", Some(u))], NONE).Any()
  {
    assert [Message("system", Some(s)), Message("user", Some(u))][1..] == [Message("user", Some(u))];
  }

  /** What is hashed of a talk of one turn. */
  lemma OneTurnTalk(dec: Decoder, raw: string, model: string, role: string, content: Value)
    requires StringBody(raw) && dec(Quote(raw)) == Some(model) && model != "" && WF(content) && ReadsRoles(dec)
    requires role == "system" || role == "user"
    ensures var d := Talk(raw, [Turn(role, content)]);
            && WFDoc(d) && PlainKeys(d.members) && ModelOf(dec, d) == Some(model)
            && PartsOf(dec, d) == [TrimSpace(Print(content))]
            && Lookup(d.members, "messages") == Some(Arr("", FreshElems([Turn(role, content)], "")))
            && MessagesOf(dec, FreshElems([Turn(role, content)], "")) ==
               [Message(role, Some(TrimSpace(Print(content))))]
  {
    SystemWord();
    UserWord();
    TurnIs(dec, role, content);
    TalkIs(dec, raw, model, [Turn(role, content)]);
    OneMessage(dec, Turn(role, content));
    OneAnchor(role, TrimSpace(Print(content)));
  }

  lemma SameIdentity(dec: Decoder, d: Doc, e: Doc)
    requires WFDoc(d) && PlainKeys(d.members) && WFDoc(e) && PlainKeys(e.members)
    requires ModelOf(dec, d).Some? && ModelOf(dec, e).Some?
    requires Behind(ModelOf(dec, d).value, PartsOf(dec, d)) == Behind(ModelOf(dec, e).value, PartsOf(dec, e))
    ensures BodySessionID(dec, PrintDoc(d)) == BodySessionID(dec, PrintDoc(e))
  {
    SessionRead(dec, d);
    SessionRead(dec, e);
    SessionParts(dec, d);
    SessionParts(dec, e);
  }

  lemma DifferentRoles(text: string)
    ensures [Message("system", Some(text))] != [Message("user", Some(text))]
  {
    assert [Message("system", Some(text))][0].role != [Message("user", Some(text))][0].role;
  }

  /** No readable turn of that role has a content. */
  predicate Silent(ms: seq<Message>, role: string) {
    forall i :: 0 <= i < |ms| ==> !FirstContent(ms, role, i)
  }

  /** Later messages bring no anchor that is missing. */
  predicate NothingMissing(ms: seq<Message>, more: seq<Message>) {
    !Unbroken(ms) ||
    ((Silent(ms, "system") ==> Silent(more, "system")) && (Silent(ms, "user") ==> Silent(more, "user")))
  }

  lemma SilentIs(ms: seq<Message>)
    ensures Silent(ms, "system") <==> SessionAnchors(ms, NONE).system.None?
    ensures Silent(ms, "user") <==> SessionAnchors(ms, NONE).user.None?
  {
    AnchorsAreSpoken(ms, NONE);
    SilentRole(ms, "system");
    SilentRole(ms, "user");
  }

  lemma SilentRole(ms: seq<Message>, role: string)
    ensures Silent(ms, role) <==> Spoken(ms, role).None?
  {
    if Spoken(ms, role).Some? {
      SpokenIsFirst(ms, role, Spoken(ms, role).value);
    } else if i :| FirstContent(ms, role, i) {
      SpokenIsFirst(ms, role, ms[i].content.value);
    }
  }

  lemma MissingAnchors(ms: seq<Message>, more: seq<Message>)
    ensures SessionAnchors(ms + more, NONE) == SessionAnchors(ms, NONE) <==> NothingMissing(ms, more)
    ensures SessionAnchors(ms, NONE).Any() ==> SessionAnchors(ms + more, NONE).Any()
    ensures SessionAnchors(ms, NONE).Any() && !NothingMissing(ms, more) ==>
              |Contents(SessionAnchors(ms + more, NONE))| > |Contents(SessionAnchors(ms, NONE))|
  {
    LaterTurnsAdd(ms, more);
    SilentIs(ms);
    SilentIs(more);
  }

  lemma OneModelShared(dec: Decoder, d: Doc, e: Doc)
    requires WFDoc(d) && PlainKeys(d.members) && NoNul(PrintDoc(d))
    requires WFDoc(e) && PlainKeys(e.members) && NoNul(PrintDoc(e))
    requires ModelOf(dec, d).Some? && ModelOf(dec, d) == ModelOf(dec, e)
    ensures BodySessionID(dec, PrintDoc(d)) == BodySessionID(dec, PrintDoc(e)) <==> PartsOf(dec, d) == PartsOf(dec, e)
  {
    SessionsShared(dec, d, e);
    OneModelNotAbsorbed(ModelOf(dec, d).value, PartsOf(dec, d), PartsOf(dec, e));
  }

  lemma OneModelNotAbsorbed(m: string, ps: seq<string>, qs: seq<string>)
    ensures SameHashed(m, ps, m, qs) <==> ps == qs
  {
    if |qs| == 2 {
      LongerName(m, qs[0]);
    }
    if |ps| == 2 {
      LongerName(m, ps[0]);
    }
  }

  lemma LongerName(m: string, p: string)
    ensures m != m + "\0" + p
  {
    assert |m + "\0" + p| > |m|;
  }

  /**
   A chat with an anchor keeps its session when messages are added to it, exactly unless they
   bring the first content of a role that had none.
   */
  lemma LaterTurnsShareBodies(dec: Decoder, d: Doc, e: Doc, ms: seq<Message>, more: seq<Message>)
    requires WFDoc(d) && PlainKeys(d.members) && NoNul(PrintDoc(d))
    requires WFDoc(e) && PlainKeys(e.members) && NoNul(PrintDoc(e))
    requires ModelOf(dec, d).Some? && ModelOf(dec, d) == ModelOf(dec, e)
    requires !Silent(ms, "system") || !Silent(ms, "user")
    requires var m, n := Lookup(d.members, "messages"), Lookup(e.members, "messages");
             && m.Some? && m.value.Arr? && MessagesOf(dec, m.value.elems) == ms
             && n.Some? && n.value.Arr? && MessagesOf(dec, n.value.elems) == ms + more
    ensures BodySessionID(dec, PrintDoc(d)) == BodySessionID(dec, PrintDoc(e)) <==> NothingMissing(ms, more)
  {
    SilentIs(ms);
    MissingAnchors(ms, more);
    OneModelShared(dec, d, e);
  }

  // ----- conversations -----

  /** The anchored contents, when the model and the messages give a conversation. */
  function TalkParts(dec: Decoder, d: Doc): Option<seq<string>> {
    match Lookup(d.members, "messages")
    case None => None
    case Some(v) =>
      if !v.Arr? then None
      else
        match ConversationAnchors(MessagesOf(dec, v.elems), NONE)
        case None => None
        case Some(a) => if a.Any() then Some(Contents(a)) else None
  }

  lemma {:induction false} OpeningClear(ms: seq<Message>, role: string)
    requires Clear(ms)
    ensures Opening(ms, role).Some? ==> NoNul(Opening(ms, role).value)
  {
    if ms != [] {
      OpeningClear(ms[1..], role);
    }
  }

  lemma OpeningsClear(ms: seq<Message>)
    requires Clear(ms) && ConversationAnchors(ms, NONE).Some?
    ensures ClearAnchors(ConversationAnchors(ms, NONE).value)
  {
    AnchorsAreOpenings(ms, NONE);
    OpeningClear(ms, "system");
    OpeningClear(ms, "user");
  }

  lemma TalkPartsClear(dec: Decoder, d: Doc)
    requires WFDoc(d) && NoNul(PrintDoc(d)) && TalkParts(dec, d).Some?
    ensures ClearParts(TalkParts(dec, d).value) && 1 <= |TalkParts(dec, d).value| <= 2
  {
    var k := LastIndex(d.members, "messages").value;
    TurnsClear(dec, d, k);
    OpeningsClear(MessagesOf(dec, d.members[k].val.elems));
  }

  lemma IdentityHashed(model: string, a: Option<Anchors>)
    ensures a.Some? && a.value.Any() ==> ConversationIdentity(model, a) == Some(Behind(model, Contents(a.value)))
    ensures a.None? || !a.value.Any() ==> ConversationIdentity(model, a) == None
  {
    if a.Some? && a.value.Any() {
      HashedParts(a.value, model);
    }
  }

  lemma TalkHashed(dec: Decoder, d: Doc)
    ensures ConversationOf(dec, d).Some? <==> ModelOf(dec, d).Some? && TalkParts(dec, d).Some?
    ensures ConversationOf(dec, d).Some? ==>
              ConversationOf(dec, d).value == Behind(ModelOf(dec, d).value, TalkParts(dec, d).value)
  {
    match Lookup(d.members, "messages") {
      case None =>
      case Some(v) =>
        if v.Arr? && ModelOf(dec, d).Some? {
          IdentityHashed(ModelOf(dec, d).value, ConversationAnchors(MessagesOf(dec, v.elems), NONE));
        }
    }
  }

  /** Two bodies have one conversation exactly when model and parts agree, or one name takes in a zero byte. */
  lemma ConversationsShared(dec: Decoder, d: Doc, e: Doc)
    requires WFDoc(d) && PlainKeys(d.members) && NoNul(PrintDoc(d))
    requires WFDoc(e) && PlainKeys(e.members) && NoNul(PrintDoc(e))
    requires ModelOf(dec, d).Some? && TalkParts(dec, d).Some?
    ensures ConversationID(dec, PrintDoc(d)).Some?
    ensures ConversationID(dec, PrintDoc(d)) == ConversationID(dec, PrintDoc(e)) <==>
            && ModelOf(dec, e).Some? && TalkParts(dec, e).Some?
            && SameHashed(ModelOf(dec, d).value, TalkParts(dec, d).value, ModelOf(dec, e).value, TalkParts(dec, e).value)
  {
    ConversationRead(dec, d);
    ConversationRead(dec, e);
    TalkHashed(dec, d);
    TalkHashed(dec, e);
    TalkPartsClear(dec, d);
    if ModelOf(dec, e).Some? && TalkParts(dec, e).Some? {
      TalkPartsClear(dec, e);
      BehindDetermines(ModelOf(dec, d).value, TalkParts(dec, d).value, ModelOf(dec, e).value, TalkParts(dec, e).value);
    }
  }

  /** A lone system turn and a lone user turn of the same content: the role is not hashed. */
  lemma RolesShare(dec: Decoder, content: Value)
    requires ReadsRoles(dec) && dec(Quote("m")) == Some("m") && WF(content)
    ensures Share(dec, Talk("m", [Turn("system", content)]), Talk("m", [Turn("user", content)]))
  {
    var d, e := Talk("m", [Turn("system", content)]), Talk("m", [Turn("user", content)]);
    PlainString("m");
    OneTurnTalk(dec, "m", "m", "system", content);
    OneTurnTalk(dec, "m", "m", "user", content);
    if PrintDoc(d) == PrintDoc(e) {
      SameMessages(dec, d, e);
      DifferentRoles(TrimSpace(Print(content)));
      assert false;
    }
    SameIdentity(dec, d, e);
  }

  lemma NoTurnsTalk(dec: Decoder)
    requires dec(Quote("m")) == Some("m")
    ensures var d := Talk("m", []);
            && WFDoc(d) && PlainKeys(d.members) && ModelOf(dec, d) == Some("m") && PartsOf(dec, d) == ["[]"]
            && Lookup(d.members, "messages") == Some(Arr("", []))
  {
    PlainString("m");
    TalkIs(dec, "m", "m", []);
    assert Print(Strip(Arr("", []))) == "[]";
  }

  /** No messages at all, and a system turn whose content is the empty array. */
  lemma EmptyShares(dec: Decoder)
    requires ReadsRoles(dec) && dec(Quote("m")) == Some("m")
    ensures Share(dec, Talk("m", []), Talk("m", [Turn("system", Arr("", []))]))
  {
    assert TrimSpace(Print(Arr("", []))) == "[]";
    EmptyTextShares(dec, Arr("", []));
  }

  lemma EmptyTextShares(dec: Decoder, content: Value)
    requires ReadsRoles(dec) && dec(Quote("m")) == Some("m") && WF(content) && TrimSpace(Print(content)) == "[]"
    ensures Share(dec, Talk("m", []), Talk("m", [Turn("system", content)]))
  {
    var d, e := Talk("m", []), Talk("m", [Turn("system", content)]);
    PlainString("m");
    NoTurnsTalk(dec);
    OneTurnTalk(dec, "m", "m", "system", content);
    if PrintDoc(d) == PrintDoc(e) {
      SameMessages(dec, d, e);
      assert false;
    }
    SameIdentity(dec, d, e);
  }

  /** What is hashed of a talk of two turns. */
  lemma TwoTurnTalk(dec: Decoder, raw: string, model: string, s: Value, u: Value)
    requires StringBody(raw) && dec(Quote(raw)) == Some(model) && model != "" && WF(s) && WF(u) && ReadsRoles(dec)
    ensures var turns := [Turn("system", s), Turn("user", u)];
            var d := Talk(raw, turns);
            && WFDoc(d) && PlainKeys(d.members) && ModelOf(dec, d) == Some(model)
            && PartsOf(dec, d) == [TrimSpace(Print(s)), TrimSpace(Print(u))]
            && Lookup(d.members, "messages") == Some(Arr("", FreshElems(turns, "")))
            && |MessagesOf(dec, FreshElems(turns, ""))| == 2
  {
    SystemWord();
    UserWord();
    TurnIs(dec, "system", s);
    TurnIs(dec, "user", u);
    TalkIs(dec, raw, model, [Turn("system", s), Turn("user", u)]);
    TwoMessages(dec, Turn("system", s), Turn("user", u));
    TwoAnchors(TrimSpace(Print(s)), TrimSpace(Print(u)));
  }

  /** A user asking a model whose name takes in a zero byte and the text of a system prompt, and that prompt. */
  lemma AbsorbedShare(dec: Decoder, raw: string, m: string, other: string, n: string, s: Value, u: Value)
    requires ReadsRoles(dec) && StringBody(raw) && StringBody(other) && WF(s) && WF(u) && n != ""
    requires dec(Quote(raw)) == Some(m) && dec(Quote(other)) == Some(n) && m == n + "\0" + TrimSpace(Print(s))
    ensures Share(dec, Talk(raw, [Turn("user", u)]), Talk(other, [Turn("system", s), Turn("user", u)]))
  {
    var d, e := Talk(raw, [Turn("user", u)]), Talk(other, [Turn("system", s), Turn("user", u)]);
    OneTurnTalk(dec, raw, m, "user", u);
    TwoTurnTalk(dec, other, n, s, u);
    if PrintDoc(d) == PrintDoc(e) {
      SameMessages(dec, d, e);
      assert false;
    }
    OneBehind(m, TrimSpace(Print(u)));
    TwoBehind(n, TrimSpace(Print(s)), TrimSpace(Print(u)));
    SameIdentity(dec, d, e);
  }

  /** For one: a user asking the model a\u0000"b", and the model a with the system prompt b. */
  lemma NamesShare(dec: Decoder)
    requires ReadsRoles(dec) && dec(Quote("a")) == Some("a")
    requires dec(Quote("a\\u0000\\\"b\\\"")) == Some("a\0\"b\"")
    ensures Share(dec, Talk("a\\u0000\\\"b\\\"", [Turn("user", Str("c"))]),
                  Talk("a", [Turn("system", Str("b")), Turn("user", Str("c"))]))
  {
    EscapedName();
    PromptText();
    PlainString("c");
    EscapedNameShares(dec, "a\\u0000\\\"b\\\"", Str("b"), Str("c"));
  }

  lemma EscapedNameShares(dec: Decoder, raw: string, s: Value, u: Value)
    requires ReadsRoles(dec) && dec(Quote("a")) == Some("a") && StringBody(raw) && WF(s) && WF(u)
    requires dec(Quote(raw)) == Some("a\0\"b\"") && TrimSpace(Print(s)) == "\"b\""
    ensures Share(dec, Talk(raw, [Turn("user", u)]), Talk("a", [Turn("system", s), Turn("user", u)]))
  {
    PlainString("a");
    assert "a" + "\0" + "\"b\"" == "a\0\"b\"";
    AbsorbedShare(dec, raw, "a\0\"b\"", "a", "a", s, u);
  }

  lemma PromptText()
    ensures WF(Str("b")) && TrimSpace(Print(Str("b"))) == "\"b\""
  {
    PlainString("b");
  }

  lemma EscapedName()
    ensures StringBody("a\\u0000\\\"b\\\"")
  {
    var raw := "a\\u0000\\\"b\\\"";
    PlainString("");
    assert StringBody(raw[10..]);
    assert raw[9..] == ['b'] + raw[10..] && StringBody(raw[9..]);
    assert StringBody(raw[7..]);
    assert StringBody(raw[6..]) && StringBody(raw[5..]) && StringBody(raw[4..]) && StringBody(raw[3..]);
    assert StringBody(raw[1..]);
  }
}
