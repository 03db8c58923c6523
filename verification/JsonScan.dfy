/**
 The scanner of jsonspan.go: it finds the members of a JSON object by byte
 offset, without decoding.  Each loop of the source is a method proved against
 a recursive function; the theorems about the functions are in JsonTree.dfy.
 */
module JsonScan {
  import opened Text

  datatype Span = Span(key: string, start: nat, end: nat)

  /** Spans of the members in document order, and the offset of the closing brace. */
  datatype Object = Object(spans: seq<Span>, end: nat)

  predicate IsSpace(c: char) { c == ' ' || c == '\t' || c == '\n' || c == '\r' }

  predicate IsOpen(c: char) { c == '{' || c == '[' }

  predicate IsClose(c: char) { c == '}' || c == ']' }

  predicate EndsScalar(c: char) { c == ',' || IsClose(c) || IsSpace(c) }

  predicate StartsScalar(c: char) {
    c == '-' || '0' <= c <= '9' || c == 't' || c == 'f' || c == 'n'
  }

  // ----- what each loop computes -----

  function SkipSpace(b: string, i: nat): (j: nat)
    ensures i <= j && (i <= |b| ==> j <= |b|)
    ensures j < |b| ==> !IsSpace(b[j])
    decreases |b| - i
  {
    if i < |b| && IsSpace(b[i]) then SkipSpace(b, i + 1) else i
  }

  function StringTail(b: string, j: nat): (r: Option<nat>)
    ensures r.Some? ==> j < r.value <= |b| && b[r.value - 1] == '"'
    decreases |b| - j
  {
    if j >= |b| then None
    else if b[j] == '\\' then StringTail(b, j + 2)
    else if b[j] == '"' then Some(j + 1)
    else if b[j] < ' ' then None
    else StringTail(b, j + 1)
  }

  function ScanString(b: string, i: nat): (r: Option<nat>)
    ensures r.Some? ==> i + 2 <= r.value <= |b| && b[i] == '"' && b[r.value - 1] == '"'
  {
    if i >= |b| || b[i] != '"' then None else StringTail(b, i + 1)
  }

  /** The bracket counter: the offset behind the bracket that closes `depth` levels. */
  function Nest(b: string, j: nat, depth: int): (r: Option<nat>)
    ensures r.Some? ==> j < r.value <= |b|
    decreases |b| - j
  {
    if j >= |b| then None
    else if b[j] == '"' then
      match ScanString(b, j)
      case None => None
      case Some(end) => Nest(b, end, depth)
    else if IsOpen(b[j]) then Nest(b, j + 1, depth + 1)
    else if IsClose(b[j]) then (if depth == 1 then Some(j + 1) else Nest(b, j + 1, depth - 1))
    else Nest(b, j + 1, depth)
  }

  function ScalarEnd(b: string, j: nat): (r: nat)
    ensures j <= r && (j <= |b| ==> r <= |b|)
    decreases |b| - j
  {
    if j < |b| && !EndsScalar(b[j]) then ScalarEnd(b, j + 1) else j
  }

  function ScanValue(b: string, i: nat): (r: Option<nat>)
    ensures r.Some? ==> i < r.value <= |b|
  {
    if i >= |b| then None
    else if b[i] == '"' then ScanString(b, i)
    else if IsOpen(b[i]) then Nest(b, i, 0)
    else if !StartsScalar(b[i]) then None
    else Some(ScalarEnd(b, i + 1))
  }

  /** A key without an escape is its own name; one with an escape never decodes (EscapedKeyFails). */
  function KeyName(raw: string): Option<string> {
    if '\\' in raw then None else Some(raw)
  }

  // The object loop, cut into its stages: at a key, behind the key, behind the value.

  /** The object loop from offset `i`, behind the opening brace or a comma. */
  function Members(b: string, i: nat): (r: Option<Object>)
    ensures r.Some? ==> i <= r.value.end < |b| && b[r.value.end] == '}'
    decreases |b| - i, 4
  {
    AtKey(b, SkipSpace(b, i))
  }

  function AtKey(b: string, i: nat): (r: Option<Object>)
    ensures r.Some? ==> i <= r.value.end < |b| && b[r.value.end] == '}'
    decreases |b| - i, 3
  {
    if i >= |b| then None
    else if b[i] == '}' then Some(Object([], i))
    else
      match ScanString(b, i)
      case None => None
      case Some(keyEnd) =>
        match KeyName(b[i + 1..keyEnd - 1])
        case None => None
        case Some(key) => AfterKey(b, key, keyEnd)
  }

  function AfterKey(b: string, key: string, keyEnd: nat): (r: Option<Object>)
    ensures r.Some? ==> keyEnd <= r.value.end < |b| && b[r.value.end] == '}'
    decreases |b| - keyEnd, 2
  {
    var colon := SkipSpace(b, keyEnd);
    if colon >= |b| || b[colon] != ':' then None
    else
      var start := SkipSpace(b, colon + 1);
      match ScanValue(b, start)
      case None => None
      case Some(end) => AfterValue(b, Span(key, start, end))
  }

  /** Behind a value: the closing brace, or a comma that another member follows. */
  function AfterValue(b: string, span: Span): (r: Option<Object>)
    requires span.end <= |b|
    ensures r.Some? ==> span.end <= r.value.end < |b| && b[r.value.end] == '}'
    decreases |b| - span.end, 1
  {
    var i := SkipSpace(b, span.end);
    if i >= |b| then None
    else if b[i] == '}' then Some(Object([span], i))
    else if b[i] != ',' then None
    else
      var next := SkipSpace(b, i + 1);
      if next < |b| && b[next] == '}' then None else Prepend([span], Members(b, next))
  }

  function Prepend(spans: seq<Span>, r: Option<Object>): Option<Object> {
    match r
    case None => None
    case Some(obj) => Some(Object(spans + obj.spans, obj.end))
  }

  function ScanObjectAt(b: string, i: nat): (r: Option<Object>)
    ensures r.Some? ==> i < r.value.end < |b| && b[r.value.end] == '}'
  {
    if i >= |b| || b[i] != '{' then None else Members(b, i + 1)
  }

  function ScanObject(b: string): (r: Option<Object>)
    ensures r.Some? ==> r.value.end < |b| && b[r.value.end] == '}'
  {
    match ScanObjectAt(b, SkipSpace(b, 0))
    case None => None
    case Some(obj) => if SkipSpace(b, obj.end + 1) == |b| then Some(obj) else None
  }

  /** The element loop of jsonArrayElements, from offset `i` up to the closing bracket at `end`. */
  function Elements(b: string, i: nat, end: nat): (r: Option<seq<Span>>)
    requires end < |b|
    decreases |b| - i
  {
    match ScanValue(b, i)
    case None => None
    case Some(stop) =>
      if stop > end then None
      else
        var sep := SkipSpace(b, stop);
        if sep == end then Some([Span("", i, stop)])
        else if sep > end || b[sep] != ',' then None
        else
          Behind([Span("", i, stop)], Elements(b, SkipSpace(b, sep + 1), end))
  }

  function Behind(elems: seq<Span>, r: Option<seq<Span>>): Option<seq<Span>> {
    match r
    case None => None
    case Some(rest) => Some(elems + rest)
  }

  function ArrayElements(b: string, span: Span): Option<seq<Span>> {
    if span.end > |b| || span.start >= span.end || b[span.start] != '[' then None
    else
      var end := span.end - 1;
      if b[end] != ']' then None
      else
        var i := SkipSpace(b, span.start + 1);
        if i == end then Some([]) else Elements(b, i, end)
  }

  // ----- spans lie inside the body -----

  /** A span inside the body; one that opens with a bracket also holds a closing one. */
  predicate Solid(b: string, s: Span) {
    s.start < s.end <= |b| && (IsOpen(b[s.start]) ==> s.start + 2 <= s.end)
  }

  predicate Bounded(b: string, r: Option<Object>) {
    r.Some? ==> forall s :: s in r.value.spans ==> Solid(b, s)
  }

  lemma {:induction false} MembersBounded(b: string, i: nat)
    ensures Bounded(b, Members(b, i))
    decreases |b| - i, 3
  {
    var q := SkipSpace(b, i);
    if q < |b| && b[q] != '}' && ScanString(b, q).Some? {
      var keyEnd := ScanString(b, q).value;
      match KeyName(b[q + 1..keyEnd - 1]) {
        case None =>
        case Some(key) => AfterKeyBounded(b, key, keyEnd);
      }
    }
    assert Members(b, i) == AtKey(b, q);
  }

  lemma {:induction false} AfterKeyBounded(b: string, key: string, keyEnd: nat)
    ensures Bounded(b, AfterKey(b, key, keyEnd))
    decreases |b| - keyEnd, 2
  {
    var start := SkipSpace(b, SkipSpace(b, keyEnd) + 1);
    match ScanValue(b, start) {
      case None =>
      case Some(end) => AfterValueBounded(b, Span(key, start, end));
    }
  }

  lemma {:induction false} AfterValueBounded(b: string, span: Span)
    requires Solid(b, span)
    ensures Bounded(b, AfterValue(b, span))
    decreases |b| - span.end, 1
  {
    var i := SkipSpace(b, span.end);
    if i < |b| && b[i] == ',' {
      MembersBounded(b, SkipSpace(b, i + 1));
    }
  }

  lemma ObjectBounded(b: string)
    ensures Bounded(b, ScanObject(b))
  {
    MembersBounded(b, SkipSpace(b, 0) + 1);
  }

  // ----- the loops -----

  method SkipJSONSpace(body: string, i: nat) returns (j: nat)
    ensures j == SkipSpace(body, i)
  {
    j := i;
    while j < |body|
      invariant SkipSpace(body, j) == SkipSpace(body, i)
      decreases |body| - j
    {
      if !IsSpace(body[j]) {
        return;
      }
      j := j + 1;
    }
  }

  method ScanJSONString(body: string, i: nat) returns (end: nat, ok: bool)
    ensures ScanString(body, i) == if ok then Some(end) else None
  {
    if i >= |body| || body[i] != '"' {
      return 0, false;
    }
    var j := i + 1;
    while j < |body|
      invariant StringTail(body, j) == ScanString(body, i)
      decreases |body| - j
    {
      if body[j] == '\\' {
        j := j + 2;
      } else if body[j] == '"' {
        return j + 1, true;
      } else {
        if body[j] < ' ' {
          return 0, false;
        }
        j := j + 1;
      }
    }
    return 0, false;
  }

  method ScanJSONValue(body: string, i: nat) returns (end: nat, ok: bool)
    ensures ScanValue(body, i) == if ok then Some(end) else None
  {
    if i >= |body| {
      return 0, false;
    }
    if body[i] == '"' {
      end, ok := ScanJSONString(body, i);
      return;
    }
    if IsOpen(body[i]) {
      var depth, j := 0, i;
      while j < |body|
        invariant Nest(body, j, depth) == ScanValue(body, i)
        decreases |body| - j
      {
        if body[j] == '"' {
          var stop, closed := ScanJSONString(body, j);
          if !closed {
            return 0, false;
          }
          j := stop;
          continue;
        }
        if IsOpen(body[j]) {
          depth := depth + 1;
        } else if IsClose(body[j]) {
          depth := depth - 1;
          if depth == 0 {
            return j + 1, true;
          }
        }
        j := j + 1;
      }
      return 0, false;
    }
    if !StartsScalar(body[i]) {
      return 0, false;
    }
    var j := i;
    while j < |body|
      invariant i <= j
      invariant ScalarEnd(body, j) == ScalarEnd(body, i)
      decreases |body| - j
    {
      if EndsScalar(body[j]) {
        return j, true;
      }
      j := j + 1;
    }
    return j, true;
  }

  method ScanJSONObjectAt(body: string, start: nat) returns (obj: Object, ok: bool)
    ensures ScanObjectAt(body, start) == if ok then Some(obj) else None
  {
    obj := Object([], 0);
    if start >= |body| || body[start] != '{' {
      return obj, false;
    }
    var i := start + 1;
    PrependNone(Members(body, i));
    while true
      invariant Prepend(obj.spans, Members(body, i)) == ScanObjectAt(body, start)
      decreases |body| - i
    {
      ghost var all := Members(body, i);
      i := SkipJSONSpace(body, i);
      assert all == AtKey(body, i);
      if i >= |body| {
        return obj, false;
      }
      if body[i] == '}' {
        assert obj.spans + [] == obj.spans;
        return obj.(end := i), true;
      }
      var keyEnd, isString := ScanJSONString(body, i);
      if !isString {
        return obj, false;
      }
      var key := KeyName(body[i + 1..keyEnd - 1]);
      if key.None? {
        return obj, false;
      }
      assert all == AfterKey(body, key.value, keyEnd);
      var span, isMember := ScanJSONMemberValue(body, key.value, keyEnd);
      if !isMember {
        return obj, false;
      }
      var sep := SkipJSONSpace(body, span.end);
      if sep >= |body| {
        return obj, false;
      }
      if body[sep] == ',' {
        i := SkipJSONSpace(body, sep + 1);
        if i < |body| && body[i] == '}' {
          return obj, false;
        }
        assert all == Prepend([span], Members(body, i));
        PrependStep(obj.spans, span, Members(body, i));
        obj := obj.(spans := obj.spans + [span]);
      } else if body[sep] == '}' {
        return Object(obj.spans + [span], sep), true;
      } else {
        return obj, false;
      }
    }
  }

  /** The part of the object loop between a key and the end of its value. */
  method ScanJSONMemberValue(body: string, key: string, keyEnd: nat) returns (span: Span, ok: bool)
    ensures ok ==> keyEnd < span.end <= |body|
    ensures AfterKey(body, key, keyEnd) == if ok then AfterValue(body, span) else None
  {
    span := Span(key, 0, 0);
    var colon := SkipJSONSpace(body, keyEnd);
    if colon >= |body| || body[colon] != ':' {
      return span, false;
    }
    var start := SkipJSONSpace(body, colon + 1);
    var end, isValue := ScanJSONValue(body, start);
    return Span(key, start, end), isValue;
  }

  lemma PrependNone(r: Option<Object>)
    ensures Prepend([], r) == r
  {
    if r.Some? {
      assert [] + r.value.spans == r.value.spans;
    }
  }

  lemma PrependStep(spans: seq<Span>, span: Span, r: Option<Object>)
    ensures Prepend(spans, Prepend([span], r)) == Prepend(spans + [span], r)
  {
    if r.Some? {
      assert spans + ([span] + r.value.spans) == (spans + [span]) + r.value.spans;
    }
  }

  method ScanJSONObject(body: string) returns (obj: Object, ok: bool)
    ensures ScanObject(body) == if ok then Some(obj) else None
  {
    var i := SkipJSONSpace(body, 0);
    if i >= |body| || body[i] != '{' {
      return Object([], 0), false;
    }
    obj, ok := ScanJSONObjectAt(body, i);
    if !ok {
      return;
    }
    var stop := SkipJSONSpace(body, obj.end + 1);
    ok := stop == |body|;
  }

  method JSONArrayElements(body: string, span: Span) returns (elems: seq<Span>, ok: bool)
    ensures ArrayElements(body, span) == if ok then Some(elems) else None
  {
    elems := [];
    if span.end > |body| || span.start >= span.end || body[span.start] != '[' {
      return elems, false;
    }
    var end := span.end - 1;
    if body[end] != ']' {
      return elems, false;
    }
    var i := SkipJSONSpace(body, span.start + 1);
    if i == end {
      return elems, true;
    }
    BehindNone(Elements(body, i, end));
    while true
      invariant Behind(elems, Elements(body, i, end)) == ArrayElements(body, span)
      decreases |body| - i
    {
      var stop, isValue := ScanJSONValue(body, i);
      if !isValue || stop > end {
        return [], false;
      }
      var sep := SkipJSONSpace(body, stop);
      if sep == end {
        return elems + [Span("", i, stop)], true;
      }
      if sep > end || body[sep] != ',' {
        return [], false;
      }
      var next := SkipJSONSpace(body, sep + 1);
      BehindStep(elems, Span("", i, stop), Elements(body, next, end));
      elems := elems + [Span("", i, stop)];
      i := next;
    }
  }

  lemma BehindStep(elems: seq<Span>, span: Span, r: Option<seq<Span>>)
    ensures Behind(elems, Behind([span], r)) == Behind(elems + [span], r)
  {
    if r.Some? {
      assert elems + ([span] + r.value) == (elems + [span]) + r.value;
    }
  }

  lemma BehindNone(r: Option<seq<Span>>)
    ensures Behind([], r) == r
  {
    if r.Some? {
      assert [] + r.value == r.value;
    }
  }

  // ----- looking members up -----

  /** The last member named `key`, as decoding into a map would leave it. */
  function Find(spans: seq<Span>, key: string): (r: Option<Span>)
    ensures r.Some? ==> r.value in spans && r.value.key == key
    ensures r.None? <==> forall s :: s in spans ==> s.key != key
  {
    if spans == [] then None
    else
      var n := |spans| - 1;
      if spans[n].key == key then Some(spans[n])
      else
        assert spans == spans[..n] + [spans[n]];
        Find(spans[..n], key)
  }

  method FindJSONMember(obj: Object, key: string) returns (found: Option<Span>)
    ensures found == Find(obj.spans, key)
  {
    found := None;
    for i := 0 to |obj.spans|
      invariant found == Find(obj.spans[..i], key)
    {
      assert obj.spans[..i + 1][..i] == obj.spans[..i];
      if obj.spans[i].key == key {
        found := Some(obj.spans[i]);
      }
    }
    assert obj.spans[..|obj.spans|] == obj.spans;
  }

  // ----- keys with escapes -----

  /** json.Unmarshal into a string, left uninterpreted. */
  type Decoder = string -> Option<string>

  /** The one fact used: a document that decodes is a quoted string, or holds no escape (null). */
  ghost predicate Lawful(dec: Decoder) {
    forall doc :: dec(doc).Some? ==>
      '\\' !in doc || (SkipSpace(doc, 0) < |doc| && doc[SkipSpace(doc, 0)] == '"')
  }

  /** jsonKeyName: the raw key is handed to the decoder without its quotes. */
  function JSONKeyName(dec: Decoder, raw: string): Option<string> {
    if '\\' !in raw then Some(raw) else dec(raw)
  }

  /** So no key with an escape ever decodes, whatever the decoder. */
  lemma EscapedKeyFails(dec: Decoder, b: string, i: nat)
    requires Lawful(dec) && ScanString(b, i).Some?
    ensures var raw := b[i + 1..ScanString(b, i).value - 1];
            JSONKeyName(dec, raw) == KeyName(raw)
  {
    var end := ScanString(b, i).value;
    var raw := b[i + 1..end - 1];
    var t := SkipSpace(raw, 0);
    if t < |raw| && raw[t] == '"' {
      forall k | i + 1 <= k < i + 1 + t
        ensures IsSpace(b[k])
      {
        SkippedIsSpace(raw, 0, k - i - 1);
      }
      FirstQuoteCloses(b, i + 1, t);
      assert false;
    }
  }

  lemma {:induction false} SkippedIsSpace(b: string, i: nat, k: nat)
    requires i <= k < SkipSpace(b, i)
    ensures k < |b| && IsSpace(b[k])
    decreases k - i
  {
    if i < k {
      SkippedIsSpace(b, i + 1, k);
    }
  }

  lemma {:induction false} FirstQuoteCloses(b: string, i: nat, t: nat)
    requires i + t < |b| && b[i + t] == '"'
    requires forall k :: i <= k < i + t ==> IsSpace(b[k])
    ensures StringTail(b, i).None? || StringTail(b, i).value == i + t + 1
    decreases t
  {
    if t > 0 {
      FirstQuoteCloses(b, i + 1, t - 1);
    }
  }
}
