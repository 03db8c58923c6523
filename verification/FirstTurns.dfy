/**
 Which contents anchor a conversation: the first system and the first user content,
 counted over the messages themselves, and what later turns can change.
 */
module FirstTurns {
  import opened Text
  import opened JsonScan
  import opened JsonTree
  import opened Rewrite
  import opened Session

  // ----- the first content of a role -----

  predicate TurnOf(ms: seq<Message>, role: string, i: int) {
    0 <= i < |ms| && ms[i].Message? && ms[i].role == role
  }

  /** Message `i` is the first turn of that role with a content, and no message before it is broken. */
  predicate FirstContent(ms: seq<Message>, role: string, i: int) {
    && TurnOf(ms, role, i) && ms[i].content.Some?
    && (forall k :: 0 <= k < i ==> ms[k].Message?)
    && (forall k :: 0 <= k < i && TurnOf(ms, role, k) ==> ms[k].content.None?)
  }

  /** Message `i` is the first turn of that role. */
  predicate FirstTurn(ms: seq<Message>, role: string, i: int) {
    TurnOf(ms, role, i) && forall k :: 0 <= k < i ==> !TurnOf(ms, role, k)
  }

  predicate Unbroken(ms: seq<Message>) { forall k :: 0 <= k < |ms| ==> ms[k].Message? }

  function OrElse(a: Option<string>, b: Option<string>): Option<string> { if a.Some? then a else b }

  // ----- the session loop -----

  /** The content the session loop finds for a role. */
  function Spoken(ms: seq<Message>, role: string): Option<string> {
    if ms == [] || ms[0].Broken? then None
    else if ms[0].role == role && ms[0].content.Some? then ms[0].content
    else Spoken(ms[1..], role)
  }

  lemma {:induction false} AnchorsAreSpoken(ms: seq<Message>, seen: Anchors)
    requires !seen.Both()
    ensures SessionAnchors(ms, seen) ==
            Anchors(OrElse(seen.system, Spoken(ms, "system")), OrElse(seen.user, Spoken(ms, "user")))
  {
    if ms != [] && ms[0].Message? {
      var now := if ms[0].content.None? then seen else seen.Note(ms[0].role, ms[0].content.value);
      if !now.Both() {
        AnchorsAreSpoken(ms[1..], now);
      }
    }
  }

  /** Looking one message further. */
  lemma FirstBehind(m: Message, ms: seq<Message>, role: string, i: nat)
    requires m.Message? && !(m.role == role && m.content.Some?)
    ensures FirstContent([m] + ms, role, i + 1) <==> FirstContent(ms, role, i)
  {
    var all := [m] + ms;
    if FirstContent(ms, role, i) {
      forall k | 0 <= k < i + 1
        ensures all[k].Message? && (TurnOf(all, role, k) ==> all[k].content.None?)
      {
        assert k > 0 ==> all[k] == ms[k - 1] && (TurnOf(ms, role, k - 1) <==> TurnOf(all, role, k));
      }
    }
    if FirstContent(all, role, i + 1) {
      forall k | 0 <= k < i
        ensures ms[k].Message? && (TurnOf(ms, role, k) ==> ms[k].content.None?)
      {
        assert ms[k] == all[k + 1] && (TurnOf(ms, role, k) <==> TurnOf(all, role, k + 1));
      }
    }
  }

  lemma {:induction false} SpokenIsFirst(ms: seq<Message>, role: string, c: string)
    ensures Spoken(ms, role) == Some(c) <==> exists i :: FirstContent(ms, role, i) && ms[i].content == Some(c)
  {
    if ms != [] {
      var m, rest := ms[0], ms[1..];
      assert ms == [m] + rest;
      if m.Message? && m.role == role && m.content.Some? {
        assert FirstContent(ms, role, 0);
      } else if m.Message? {
        SpokenIsFirst(rest, role, c);
        assert !FirstContent(ms, role, 0);
        if i :| FirstContent(rest, role, i) && rest[i].content == Some(c) {
          FirstBehind(m, rest, role, i);
          assert ms[i + 1] == rest[i];
        }
        if j :| FirstContent(ms, role, j) && ms[j].content == Some(c) {
          FirstBehind(m, rest, role, j - 1);
          assert rest[j - 1] == ms[j];
        }
      }
    }
  }

  /** Each session anchor is the first content of its role in front of any broken message. */
  lemma SessionAnchorsAreFirst(ms: seq<Message>, c: string)
    ensures SessionAnchors(ms, NONE).system == Some(c) <==>
            exists i :: FirstContent(ms, "system", i) && ms[i].content == Some(c)
    ensures SessionAnchors(ms, NONE).user == Some(c) <==>
            exists i :: FirstContent(ms, "user", i) && ms[i].content == Some(c)
  {
    AnchorsAreSpoken(ms, NONE);
    SpokenIsFirst(ms, "system", c);
    SpokenIsFirst(ms, "user", c);
  }

  lemma {:induction false} SpokenMore(ms: seq<Message>, more: seq<Message>, role: string)
    ensures Unbroken(ms) ==> Spoken(ms + more, role) == OrElse(Spoken(ms, role), Spoken(more, role))
    ensures !Unbroken(ms) ==> Spoken(ms + more, role) == Spoken(ms, role)
  {
    if ms == [] {
      assert ms + more == more;
    } else {
      assert (ms + more)[1..] == ms[1..] + more;
      if ms[0].Message? {
        SpokenMore(ms[1..], more, role);
        UnbrokenTail(ms);
      }
    }
  }

  lemma UnbrokenTail(ms: seq<Message>)
    requires ms != [] && ms[0].Message?
    ensures Unbroken(ms) <==> Unbroken(ms[1..])
  {
    if Unbroken(ms[1..]) {
      forall k | 0 <= k < |ms|
        ensures ms[k].Message?
      {
        assert k > 0 ==> ms[k] == ms[1..][k - 1];
      }
    }
  }

  /** Later messages can only add a missing anchor, and behind a broken message they add none. */
  lemma LaterTurnsAdd(ms: seq<Message>, more: seq<Message>)
    ensures var a, b, all := SessionAnchors(ms, NONE), SessionAnchors(more, NONE), SessionAnchors(ms + more, NONE);
            all == if Unbroken(ms) then Anchors(OrElse(a.system, b.system), OrElse(a.user, b.user)) else a
  {
    AnchorsAreSpoken(ms, NONE);
    AnchorsAreSpoken(more, NONE);
    AnchorsAreSpoken(ms + more, NONE);
    SpokenMore(ms, more, "system");
    SpokenMore(ms, more, "user");
  }

  // ----- the conversation loop -----

  /** The content of the first turn of a role; a turn without one counts as empty. */
  function Opening(ms: seq<Message>, role: string): Option<string> {
    if ms == [] then None
    else if ms[0].Message? && ms[0].role == role then Some(ContentText(ms[0].content))
    else Opening(ms[1..], role)
  }

  function ContentText(content: Option<string>): string { if content.Some? then content.value else "" }

  lemma {:induction false} AnchorsAreOpenings(ms: seq<Message>, seen: Anchors)
    ensures ConversationAnchors(ms, seen).Some? <==> Unbroken(ms)
    ensures Unbroken(ms) ==>
              ConversationAnchors(ms, seen).value ==
              Anchors(OrElse(seen.system, Opening(ms, "system")), OrElse(seen.user, Opening(ms, "user")))
  {
    if ms != [] && ms[0].Message? {
      UnbrokenTail(ms);
      AnchorsAreOpenings(ms[1..], seen.Note(ms[0].role, ContentText(ms[0].content)));
    }
  }

  lemma TurnBehind(m: Message, ms: seq<Message>, role: string, i: nat)
    requires !(m.Message? && m.role == role)
    ensures FirstTurn([m] + ms, role, i + 1) <==> FirstTurn(ms, role, i)
  {
    var all := [m] + ms;
    assert forall k :: 0 <= k < |ms| ==> (TurnOf(ms, role, k) <==> TurnOf(all, role, k + 1));
    if FirstTurn(ms, role, i) {
      forall k | 0 <= k < i + 1
        ensures !TurnOf(all, role, k)
      {
        assert k > 0 ==> !TurnOf(ms, role, k - 1);
      }
    }
    if FirstTurn(all, role, i + 1) {
      forall k | 0 <= k < i
        ensures !TurnOf(ms, role, k)
      {
        assert !TurnOf(all, role, k + 1);
      }
    }
  }

  lemma {:induction false} OpeningIsFirst(ms: seq<Message>, role: string, c: string)
    ensures Opening(ms, role) == Some(c) <==> exists i :: FirstTurn(ms, role, i) && ContentText(ms[i].content) == c
  {
    if ms != [] {
      var m, rest := ms[0], ms[1..];
      assert ms == [m] + rest;
      if m.Message? && m.role == role {
        assert FirstTurn(ms, role, 0);
      } else {
        OpeningIsFirst(rest, role, c);
        assert !FirstTurn(ms, role, 0);
        if i :| FirstTurn(rest, role, i) && ContentText(rest[i].content) == c {
          TurnBehind(m, rest, role, i);
          assert ms[i + 1] == rest[i];
        }
        if j :| FirstTurn(ms, role, j) && ContentText(ms[j].content) == c {
          TurnBehind(m, rest, role, j - 1);
          assert rest[j - 1] == ms[j];
        }
      }
    }
  }

  /** `c` is the content of message `i`, which counts as empty when there is none. */
  predicate Reads(ms: seq<Message>, i: int, c: string) {
    0 <= i < |ms| && ms[i].Message? && if ms[i].content.Some? then ms[i].content.value == c else c == ""
  }

  /** The conversation loop gives up on a broken message; else each anchor is the first turn of its role. */
  lemma ConversationAnchorsAreFirst(ms: seq<Message>, c: string)
    ensures var a := ConversationAnchors(ms, NONE);
            && (a.None? <==> exists k :: 0 <= k < |ms| && ms[k].Broken?)
            && (a.Some? ==>
                  && (a.value.system == Some(c) <==> exists i :: FirstTurn(ms, "system", i) && Reads(ms, i, c))
                  && (a.value.user == Some(c) <==> exists i :: FirstTurn(ms, "user", i) && Reads(ms, i, c)))
  {
    AnchorsAreOpenings(ms, NONE);
    OpeningIsFirst(ms, "system", c);
    OpeningIsFirst(ms, "user", c);
  }

  lemma {:induction false} OpeningMore(ms: seq<Message>, more: seq<Message>, role: string)
    ensures Opening(ms + more, role) == OrElse(Opening(ms, role), Opening(more, role))
  {
    if ms == [] {
      assert ms + more == more;
    } else {
      assert (ms + more)[1..] == ms[1..] + more;
      OpeningMore(ms[1..], more, role);
    }
  }

  /** Later messages can only add a missing anchor, or break the conversation. */
  lemma LaterTurnsContinue(ms: seq<Message>, more: seq<Message>)
    ensures var a, b := ConversationAnchors(ms, NONE), ConversationAnchors(more, NONE);
            ConversationAnchors(ms + more, NONE) ==
            if a.None? || b.None? then None
            else Some(Anchors(OrElse(a.value.system, b.value.system), OrElse(a.value.user, b.value.user)))
  {
    AnchorsAreOpenings(ms, NONE);
    AnchorsAreOpenings(more, NONE);
    AnchorsAreOpenings(ms + more, NONE);
    OpeningMore(ms, more, "system");
    OpeningMore(ms, more, "user");
    assert Unbroken(ms + more) ==> forall k :: 0 <= k < |ms| ==> ms[k] == (ms + more)[k];
    assert Unbroken(ms + more) ==> forall k :: 0 <= k < |more| ==> more[k] == (ms + more)[|ms| + k];
  }

  // ----- the messages of a body -----

  /** A message that stops the loops: no object with plain keys, or one whose role is no readable string. */
  predicate Unreadable(dec: Decoder, v: Value) {
    !v.Obj? || !PlainKeys(v.members) ||
    (Lookup(v.members, "role").Some? && StringOf(dec, Lookup(v.members, "role")).None?)
  }

  /** What a message says, by the last members of the names `role` and `content`. */
  lemma MessageSays(dec: Decoder, v: Value, role: string)
    requires role != ""
    ensures MessageOf(dec, v).Broken? <==> Unreadable(dec, v)
    ensures !Unreadable(dec, v) ==>
              && (MessageOf(dec, v).role == role <==> StringOf(dec, Lookup(v.members, "role")) == Some(role))
              && (MessageOf(dec, v).content.Some? <==> Lookup(v.members, "content").Some?)
              && (MessageOf(dec, v).content.Some? ==>
                    MessageOf(dec, v).content.value == TrimSpace(Print(Lookup(v.members, "content").value)))
  {
  }
}
