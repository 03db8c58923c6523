/**
 The tokens of RFC 8259 meet the conditions that the trees of JsonTree.dfy put on raw text.
 */
module JsonTokens {
  import opened JsonTree

  /** Section 2: insignificant whitespace is exactly these four characters. */
  lemma {:induction false} BlankIs(s: string)
    ensures Blank(s) <==> forall k :: 0 <= k < |s| ==> s[k] in {' ', '\t', '\n', '\r'}
  {
    if s != "" {
      BlankIs(s[1..]);
      assert forall k :: 1 <= k < |s| ==> s[k] == s[1..][k - 1];
    }
  }

  predicate NumberChar(c: char) { '0' <= c <= '9' || c in {'-', '+', '.', 'e', 'E'} }

  lemma {:induction false} PlainScalar(s: string)
    requires forall k :: 0 <= k < |s| ==> NumberChar(s[k]) || 'a' <= s[k] <= 'z'
    ensures Neutral(s) && Unended(s)
  {
    if s != "" {
      PlainScalar(s[1..]);
    }
  }

  /** Section 3 and 6: the three names and every number are scalars, and nothing else is by its first character. */
  lemma ScalarForms(s: string)
    ensures s == "true" || s == "false" || s == "null" ==> ScalarText(s)
    ensures s != "" && (s[0] == '-' || '0' <= s[0] <= '9') && (forall k :: 0 <= k < |s| ==> NumberChar(s[k])) ==>
              ScalarText(s)
    ensures ScalarText(s) ==> s[0] == '-' || '0' <= s[0] <= '9' || s[0] in {'t', 'f', 'n'}
  {
    if forall k :: 0 <= k < |s| ==> NumberChar(s[k]) || 'a' <= s[k] <= 'z' {
      PlainScalar(s);
    }
  }

  /** Section 7: a character that needs no escape, or an escape, in front of a string body makes one. */
  lemma StringForms(c: char, raw: string)
    ensures StringBody("")
    ensures c != '"' && c != '\\' && c as int >= 0x20 && StringBody(raw) ==> StringBody([c] + raw)
    ensures StringBody(raw) ==> StringBody(['\\', c] + raw)
    ensures c == '"' || c as int < 0x20 ==> !StringBody([c] + raw)
  {
    assert ([c] + raw)[1..] == raw && (['\\', c] + raw)[2..] == raw;
  }
}
