/** The few pieces of Python string handling the parser relies on:
    `str.split` with a one-character separator, `sep.join(parts)` and the
    substring test `sub in s`. */
module Strings {

  /** Number of occurrences of `c` in `s`. */
  function Count(s: string, c: char): nat
  {
    if s == [] then 0 else (if s[0] == c then 1 else 0) + Count(s[1..], c)
  }

  lemma {:induction false} CountZero(s: string, c: char)
    ensures Count(s, c) == 0 <==> c !in s
  {
    if s != [] {
      CountZero(s[1..], c);
      assert s == [s[0]] + s[1..];
    }
  }

  /** `s.split(c)`: the pieces of `s` between the occurrences of `c`, in order.
      There is always one more piece than there are separators, and no piece
      holds the separator. */
  function Split(s: string, c: char): (parts: seq<string>)
    ensures |parts| == Count(s, c) + 1
    ensures forall i :: 0 <= i < |parts| ==> c !in parts[i]
  {
    if s == [] then [""]
    else
      var rest := Split(s[1..], c);
      if s[0] == c then [""] + rest
      else [[s[0]] + rest[0]] + rest[1..]
  }

  /** `sep.join(parts)`; the join of no parts is the empty string. */
  function Join(sep: string, parts: seq<string>): string
  {
    if |parts| == 0 then ""
    else if |parts| == 1 then parts[0]
    else parts[0] + sep + Join(sep, parts[1..])
  }

  /** `sub in s` for strings: `sub` occurs somewhere in `s`. */
  predicate Contains(s: string, sub: string)
  {
    sub <= s || (|s| > 0 && Contains(s[1..], sub))
  }

  /** `sub` occurs in `s` starting at position `i`. */
  predicate OccursAt(s: string, sub: string, i: nat)
  {
    i + |sub| <= |s| && s[i..i + |sub|] == sub
  }

  /** The recursive substring test agrees with the positional definition. */
  lemma {:induction false} ContainsAt(s: string, sub: string)
    ensures Contains(s, sub) <==> exists i: nat :: OccursAt(s, sub, i)
  {
    if sub <= s {
      assert OccursAt(s, sub, 0);
    } else if |s| == 0 {
    } else {
      ContainsAt(s[1..], sub);
      forall i: nat ensures OccursAt(s[1..], sub, i) <==> OccursAt(s, sub, i + 1) {
        if i + 1 + |sub| <= |s| {
          assert s[1..][i..i + |sub|] == s[i + 1..i + 1 + |sub|];
        }
      }
      assert !OccursAt(s, sub, 0);
      forall i: nat | OccursAt(s, sub, i) ensures OccursAt(s[1..], sub, i - 1) {
      }
    }
  }

  lemma JoinCons(sep: string, x: string, ys: seq<string>)
    requires |ys| > 0
    ensures Join(sep, [x] + ys) == x + sep + Join(sep, ys)
  {
    assert ([x] + ys)[1..] == ys;
  }

  /** Splitting and joining again with the same separator gives back the string. */
  lemma {:induction false} JoinSplit(s: string, c: char)
    ensures Join([c], Split(s, c)) == s
  {
    if s != [] {
      JoinSplit(s[1..], c);
      if s[0] == c {
        JoinSplitSep(s, c);
      } else if |Split(s[1..], c)| == 1 {
        JoinSplitLast(s, c);
      } else {
        JoinSplitOther(s, c);
      }
    }
  }

  lemma JoinSplitSep(s: string, c: char)
    requires s != [] && s[0] == c && Join([c], Split(s[1..], c)) == s[1..]
    ensures Join([c], Split(s, c)) == s
  {
    JoinCons([c], "", Split(s[1..], c));
    assert s == [c] + s[1..];
  }

  lemma JoinSplitLast(s: string, c: char)
    requires s != [] && s[0] != c && |Split(s[1..], c)| == 1
    requires Join([c], Split(s[1..], c)) == s[1..]
    ensures Join([c], Split(s, c)) == s
  {
    var rest := Split(s[1..], c);
    assert Split(s, c) == [[s[0]] + rest[0]];
    assert s == [s[0]] + s[1..];
  }

  lemma JoinSplitOther(s: string, c: char)
    requires s != [] && s[0] != c && |Split(s[1..], c)| != 1
    requires Join([c], Split(s[1..], c)) == s[1..]
    ensures Join([c], Split(s, c)) == s
  {
    var rest := Split(s[1..], c);
    SplitOtherUnfolds(s, c);
    JoinFirstGrows(s[0], rest[0], [c], rest[1..]);
    assert s == [s[0]] + s[1..];
  }

  lemma SplitOtherUnfolds(s: string, c: char)
    requires s != [] && s[0] != c && |Split(s[1..], c)| != 1
    ensures var rest := Split(s[1..], c);
      |rest| > 1 && rest == [rest[0]] + rest[1..] && Split(s, c) == [[s[0]] + rest[0]] + rest[1..]
  {
  }

  /** Putting a character in front of the first part puts it in front of the join. */
  lemma JoinFirstGrows(x: char, first: string, sep: string, ys: seq<string>)
    requires |ys| > 0
    ensures Join(sep, [[x] + first] + ys) == [x] + Join(sep, [first] + ys)
  {
    JoinCons(sep, first, ys);
    JoinCons(sep, [x] + first, ys);
    assert [x] + first + sep + Join(sep, ys) == [x] + (first + sep + Join(sep, ys));
  }

  /** A piece free of the separator, followed by the separator, splits off as one part. */
  lemma {:induction false} SplitAfterPiece(a: string, b: string, c: char)
    requires c !in a
    ensures Split(a + [c] + b, c) == [a] + Split(b, c)
  {
    if a == [] {
      assert a + [c] + b == [c] + b;
      assert ([c] + b)[1..] == b;
    } else {
      SplitAfterPiece(a[1..], b, c);
      assert (a + [c] + b)[1..] == a[1..] + [c] + b;
      assert a == [a[0]] + a[1..];
    }
  }

  /** A string without the separator is a single part. */
  lemma {:induction false} SplitWhole(a: string, c: char)
    requires c !in a
    ensures Split(a, c) == [a]
  {
    CountZero(a, c);
    var parts := Split(a, c);
    assert |parts| == 1;
    JoinSplit(a, c);
  }

  lemma SplitConsSep(t: string, c: char)
    ensures Split([c] + t, c) == [""] + Split(t, c)
  {
    assert ([c] + t)[1..] == t;
  }

  lemma SplitConsOther(x: char, t: string, c: char)
    requires x != c
    ensures Split([x] + t, c) == [[x] + Split(t, c)[0]] + Split(t, c)[1..]
  {
    assert ([x] + t)[1..] == t;
  }

  lemma ExtendFirst(h: string, p: seq<string>, q: seq<string>, r: seq<string>)
    requires |p| > 0 && r == p + q
    ensures [h + r[0]] + r[1..] == ([h + p[0]] + p[1..]) + q
  {
    assert r[0] == p[0];
    assert r[1..] == p[1..] + q;
  }

  /** Splitting at a separator splits both sides independently. */
  lemma {:induction false} SplitConcat(a: string, b: string, c: char)
    ensures Split(a + [c] + b, c) == Split(a, c) + Split(b, c)
  {
    if a == [] {
      assert a + [c] + b == [c] + b;
      SplitConsSep(b, c);
    } else {
      SplitConcat(a[1..], b, c);
      SplitConcatStep(a, b, c);
    }
  }

  lemma SplitConcatStep(a: string, b: string, c: char)
    requires a != [] && Split(a[1..] + [c] + b, c) == Split(a[1..], c) + Split(b, c)
    ensures Split(a + [c] + b, c) == Split(a, c) + Split(b, c)
  {
    assert a + [c] + b == [a[0]] + (a[1..] + [c] + b);
    assert a == [a[0]] + a[1..];
    if a[0] == c {
      SplitConcatSep(a[1..], b, c);
    } else {
      SplitConcatOther(a[0], a[1..], b, c);
    }
  }

  lemma SplitConcatSep(p: string, b: string, c: char)
    requires Split(p + [c] + b, c) == Split(p, c) + Split(b, c)
    ensures Split([c] + (p + [c] + b), c) == Split([c] + p, c) + Split(b, c)
  {
    SplitConsSep(p + [c] + b, c);
    SplitConsSep(p, c);
  }

  lemma SplitConcatOther(x: char, p: string, b: string, c: char)
    requires x != c && Split(p + [c] + b, c) == Split(p, c) + Split(b, c)
    ensures Split([x] + (p + [c] + b), c) == Split([x] + p, c) + Split(b, c)
  {
    SplitConsOther(x, p + [c] + b, c);
    SplitConsOther(x, p, c);
    ExtendFirst([x], Split(p, c), Split(b, c), Split(p + [c] + b, c));
  }

  /** Joining separator-free parts and splitting again gives back the parts. */
  lemma {:induction false} SplitJoin(parts: seq<string>, c: char)
    requires |parts| > 0
    requires forall i :: 0 <= i < |parts| ==> c !in parts[i]
    ensures Split(Join([c], parts), c) == parts
  {
    if |parts| == 1 {
      SplitWhole(parts[0], c);
    } else {
      SplitJoin(parts[1..], c);
      SplitAfterPiece(parts[0], Join([c], parts[1..]), c);
      assert parts == [parts[0]] + parts[1..];
    }
  }

  /** A character absent from the string is absent from every piece of its split. */
  lemma {:induction false} SplitAvoids(s: string, c: char, d: char)
    requires d !in s
    ensures forall i :: 0 <= i < |Split(s, c)| ==> d !in Split(s, c)[i]
  {
    if s != [] {
      SplitAvoids(s[1..], c, d);
      assert s == [s[0]] + s[1..];
      if s[0] == c {
        SplitConsSep(s[1..], c);
      } else {
        SplitConsOther(s[0], s[1..], c);
      }
    }
  }

  /** A character absent from the parts and the separator is absent from their join. */
  lemma {:induction false} JoinAvoids(sep: string, parts: seq<string>, d: char)
    requires d !in sep
    requires forall i :: 0 <= i < |parts| ==> d !in parts[i]
    ensures d !in Join(sep, parts)
  {
    if |parts| > 1 {
      JoinAvoids(sep, parts[1..], d);
    }
  }
}
