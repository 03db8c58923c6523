/**
 Searching in Go strings.  A Go string or byte slice is modelled as a `string`
 whose characters stand for its bytes.
 */
module Text {

  datatype Option<+T> = None | Some(value: T)

  /** `sub` lies in `s` at offset `k`. */
  predicate At(s: string, sub: string, k: int) {
    0 <= k && k + |sub| <= |s| && s[k..k + |sub|] == sub
  }

  /** strings.Index: the offset of the first occurrence (IndexFirst), or -1. */
  function Index(s: string, sub: string): (r: int)
    ensures -1 <= r && (0 <= r ==> At(s, sub, r))
  {
    IndexFrom(s, sub, 0)
  }

  function IndexFrom(s: string, sub: string, i: nat): (r: int)
    requires i <= |s|
    ensures -1 <= r && (0 <= r ==> At(s, sub, r))
    decreases |s| - i
  {
    if At(s, sub, i) then i
    else if i == |s| then -1
    else IndexFrom(s, sub, i + 1)
  }

  lemma {:induction false} IndexFromFirst(s: string, sub: string, i: nat)
    requires i <= |s|
    ensures forall k :: i <= k && (k < IndexFrom(s, sub, i) || IndexFrom(s, sub, i) < 0) ==> !At(s, sub, k)
    decreases |s| - i
  {
    if !At(s, sub, i) && i < |s| {
      IndexFromFirst(s, sub, i + 1);
    }
  }

  /** Nothing occurs before the first occurrence, and nothing at all when there is none. */
  lemma IndexFirst(s: string, sub: string)
    ensures forall k :: k < Index(s, sub) || Index(s, sub) < 0 ==> !At(s, sub, k)
  {
    IndexFromFirst(s, sub, 0);
  }

  lemma {:induction false} IndexIs(s: string, sub: string, r: nat)
    requires At(s, sub, r) && forall k :: 0 <= k < r ==> !At(s, sub, k)
    ensures Index(s, sub) == r
  {
    IndexFirst(s, sub);
  }

  /** The first occurrence does not move when text arrives behind it. */
  lemma IndexExtend(a: string, b: string, sub: string)
    requires Index(a, sub) >= 0
    ensures Index(a + b, sub) == Index(a, sub)
  {
    var r := Index(a, sub);
    IndexFirst(a, sub);
    assert (a + b)[r..r + |sub|] == a[r..r + |sub|];
    assert At(a + b, sub, r);
    forall k | 0 <= k < r
      ensures !At(a + b, sub, k)
    {
      assert (a + b)[k..k + |sub|] == a[k..k + |sub|];
      assert !At(a, sub, k);
    }
    IndexIs(a + b, sub, r);
  }

  lemma AtIsPrefix(s: string, sub: string, k: nat)
    requires At(s, sub, k)
    ensures sub <= s[k..]
  {
    assert s[k..][..|sub|] == s[k..k + |sub|];
  }

  lemma AtTail(s: string, sub: string, k: nat)
    requires s != ""
    ensures At(s[1..], sub, k) <==> At(s, sub, k + 1)
  {
    if k + 1 + |sub| <= |s| {
      assert s[1..][k..k + |sub|] == s[k + 1..k + 1 + |sub|];
    }
  }

  lemma IndexOfChar(s: string, c: char)
    ensures Index(s, [c]) >= 0 <==> c in s
    ensures Index(s, [c]) >= 0 ==> Index(s, [c]) < |s| && s[Index(s, [c])] == c && c !in s[..Index(s, [c])]
  {
    var r := Index(s, [c]);
    IndexFirst(s, [c]);
    if r >= 0 {
      assert s[r..r + 1][0] == s[r];
      forall k | 0 <= k < r
        ensures s[k] != c
      {
        assert !At(s, [c], k);
        assert s[k..k + 1] == [s[k]];
      }
    } else {
      forall k | 0 <= k < |s|
        ensures s[k] != c
      {
        assert !At(s, [c], k);
        assert s[k..k + 1] == [s[k]];
      }
    }
  }
}
