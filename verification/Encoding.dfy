/** NUL-joined fields: the preimages of every fingerprint of this project. */
module Encoding {

  predicate NulFree(s: string) { '\0' !in s }

  predicate AllNulFree(parts: seq<string>) {
    forall i :: 0 <= i < |parts| ==> NulFree(parts[i])
  }

  function NulJoin(parts: seq<string>): string {
    if parts == [] then ""
    else if |parts| == 1 then parts[0]
    else parts[0] + "\0" + NulJoin(parts[1..])
  }

  /** Where a field ends is visible when the separator is not part of it. */
  lemma FirstField(sep: char, a: string, x: string, b: string, y: string)
    requires sep !in a && sep !in b && a + [sep] + x == b + [sep] + y
    ensures a == b && x == y
  {
    var s := a + [sep] + x;
    assert forall i :: 0 <= i < |a| ==> s[i] == a[i];
    assert forall i :: 0 <= i < |b| ==> s[i] == b[i];
    assert s[|a|] == sep && s[|b|] == sep;
    assert a == s[..|a|] && b == s[..|b|];
    assert x == s[|a| + 1..] && y == s[|b| + 1..];
  }

  lemma {:induction false} OneFieldHoldsNoNul(a: string, parts: seq<string>)
    requires NulFree(a) && |parts| > 1
    ensures a != NulJoin(parts)
  {
    assert NulJoin(parts)[|parts[0]|] == '\0';
  }

  /** Joining loses nothing: NUL-free fields are recovered from the joined string, their number included. */
  lemma {:induction false} NulJoinInjective(a: seq<string>, b: seq<string>)
    requires a != [] && b != [] && AllNulFree(a) && AllNulFree(b) && NulJoin(a) == NulJoin(b)
    ensures a == b
  {
    if |a| == 1 {
      if |b| > 1 {
        OneFieldHoldsNoNul(a[0], b);
      }
      assert a == [a[0]] && b == [b[0]];
    } else if |b| == 1 {
      OneFieldHoldsNoNul(b[0], a);
    } else {
      FirstField('\0', a[0], NulJoin(a[1..]), b[0], NulJoin(b[1..]));
      NulJoinInjective(a[1..], b[1..]);
      assert a == [a[0]] + a[1..] && b == [b[0]] + b[1..];
    }
  }

  lemma {:induction false} NulJoinAppend(a: seq<string>, b: seq<string>)
    requires a != [] && b != []
    ensures NulJoin(a + b) == NulJoin(a) + "\0" + NulJoin(b)
  {
    if |a| == 1 {
      assert (a + b)[1..] == b;
    } else {
      NulJoinAppend(a[1..], b);
      assert (a + b)[1..] == a[1..] + b;
    }
  }

  lemma NulJoinCons(x: string, rest: seq<string>)
    requires rest != []
    ensures NulJoin([x] + rest) == x + "\0" + NulJoin(rest)
  {
    assert ([x] + rest)[1..] == rest;
  }
}
