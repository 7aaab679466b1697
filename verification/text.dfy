/**
 * Text and sequence primitives the package relies on from Python:
 * `str(int)`, `sep.join`, `split`, `bytes.find`, and slicing with Python's
 * bound normalisation.  Everything is generic over the element type where the
 * source applies the same operation to `str` and to `bytes`.
 */
module Text {

  predicate IsDigit(c: char) { '0' <= c <= '9' }

  predicate AllDigits(s: string) { forall i :: 0 <= i < |s| ==> IsDigit(s[i]) }

  function DigitChar(d: nat): (c: char)
    requires d < 10
    ensures IsDigit(c) && c as int - '0' as int == d
  {
    ('0' as int + d) as char
  }

  /** `str(n)` for n >= 0: decimal digits, most significant first, no leading zeros. */
  function NatToString(n: nat): (s: string)
    ensures |s| > 0 && AllDigits(s)
    decreases n
  {
    if n < 10 then [DigitChar(n)] else NatToString(n / 10) + [DigitChar(n % 10)]
  }

  /** The value of a string of decimal digits. */
  function DigitsValue(s: string): nat
    requires AllDigits(s)
  {
    if |s| == 0 then 0 else DigitsValue(s[..|s| - 1]) * 10 + (s[|s| - 1] as int - '0' as int)
  }

  /** Reading back the digits of `str(n)` gives n. */
  lemma {:induction false} DigitsValueOfNatToString(n: nat)
    ensures DigitsValue(NatToString(n)) == n
  {
    if n >= 10 {
      var s := NatToString(n);
      assert s[..|s| - 1] == NatToString(n / 10);
      DigitsValueOfNatToString(n / 10);
    }
  }

  /** `str(i)` for any integer: a '-' sign for negatives, then the digits. */
  function IntToString(i: int): (s: string)
    ensures |s| > 0
    ensures forall k :: 0 <= k < |s| ==> IsDigit(s[k]) || s[k] == '-'
    ensures IsDigit(s[|s| - 1])
  {
    if i < 0 then "-" + NatToString(-i) else NatToString(i)
  }

  /** `str(i)` starts with '-' exactly for negative i. */
  lemma IntToStringSign(i: int)
    ensures IntToString(i)[0] == '-' <==> i < 0
  {
    if i >= 0 {
      assert IsDigit(NatToString(i)[0]);
    }
  }

  /** Distinct integers print differently. */
  lemma IntToStringInjective(a: int, b: int)
    requires IntToString(a) == IntToString(b)
    ensures a == b
  {
    IntToStringSign(a);
    IntToStringSign(b);
    if a < 0 {
      assert NatToString(-a) == IntToString(a)[1..];
      assert NatToString(-b) == IntToString(b)[1..];
      DigitsValueOfNatToString(-a);
      DigitsValueOfNatToString(-b);
    } else {
      DigitsValueOfNatToString(a);
      DigitsValueOfNatToString(b);
    }
  }

  /** `sep.join(parts)`. */
  function Join<T>(parts: seq<seq<T>>, sep: seq<T>): seq<T>
  {
    if |parts| == 0 then []
    else if |parts| == 1 then parts[0]
    else parts[0] + sep + Join(parts[1..], sep)
  }

  /** Index of the first occurrence of x in s. */
  function IndexOf<T(==)>(s: seq<T>, x: T): (i: nat)
    requires x in s
    ensures i < |s| && s[i] == x && x !in s[..i]
  {
    if s[0] == x then 0
    else
      var j := IndexOf(s[1..], x);
      assert s[..j + 1] == [s[0]] + s[1..][..j];
      j + 1
  }

  /**
   * Python's `s.split(sep)` for a one-element separator: the pieces between
   * separators, always at least one (an empty input gives one empty piece).
   */
  function Split<T(==)>(s: seq<T>, sep: T): (parts: seq<seq<T>>)
    ensures |parts| > 0
    ensures forall k :: 0 <= k < |parts| ==> sep !in parts[k]
    decreases |s|
  {
    if sep in s then
      var i := IndexOf(s, sep);
      [s[..i]] + Split(s[i + 1..], sep)
    else
      [s]
  }

  /** Joining the pieces of a split with the separator restores the input. */
  lemma {:induction false} JoinSplit<T>(s: seq<T>, sep: T)
    ensures Join(Split(s, sep), [sep]) == s
    decreases |s|
  {
    if sep in s {
      var i := IndexOf(s, sep);
      var rest := Split(s[i + 1..], sep);
      assert Split(s, sep) == [s[..i]] + rest;
      JoinSplit(s[i + 1..], sep);
      assert ([s[..i]] + rest)[1..] == rest;
      assert s == s[..i] + [sep] + s[i + 1..];
    }
  }

  /** The first separator in `a + [sep] + t` is the one after a, when a has none. */
  lemma IndexOfAfterPrefix<T>(a: seq<T>, sep: T, t: seq<T>)
    requires sep !in a
    ensures IndexOf(a + [sep] + t, sep) == |a|
  {
    var s := a + [sep] + t;
    assert s[|a|] == sep;
    assert s[..|a|] == a;
  }

  /** Splitting a join of separator-free pieces gives the pieces back. */
  lemma {:induction false} SplitJoin<T>(parts: seq<seq<T>>, sep: T)
    requires |parts| > 0
    requires forall k :: 0 <= k < |parts| ==> sep !in parts[k]
    ensures Split(Join(parts, [sep]), sep) == parts
  {
    if |parts| > 1 {
      var tail := Join(parts[1..], [sep]);
      var s := parts[0] + [sep] + tail;
      assert Join(parts, [sep]) == s;
      assert Split(s, sep) == [parts[0]] + Split(tail, sep) by {
        assert sep in s by { assert s[|parts[0]|] == sep; }
        IndexOfAfterPrefix(parts[0], sep, tail);
        assert s[..|parts[0]|] == parts[0];
        assert s[|parts[0]| + 1..] == tail;
      }
      SplitJoin(parts[1..], sep);
      assert parts == [parts[0]] + parts[1..];
    }
  }

  /** Joining with a one-element separator is injective on separator-free pieces. */
  lemma JoinInjective<T>(a: seq<seq<T>>, b: seq<seq<T>>, sep: T)
    requires |a| > 0 && |b| > 0
    requires forall k :: 0 <= k < |a| ==> sep !in a[k]
    requires forall k :: 0 <= k < |b| ==> sep !in b[k]
    requires Join(a, [sep]) == Join(b, [sep])
    ensures a == b
  {
    SplitJoin(a, sep);
    SplitJoin(b, sep);
  }

  /** `pat` occurs in `s` starting at index i. */
  predicate OccursAt<T(==)>(s: seq<T>, pat: seq<T>, i: int)
  {
    0 <= i && i + |pat| <= |s| && s[i..i + |pat|] == pat
  }

  /** Python's `pat in s` for `str`/`bytes`: substring containment. */
  predicate Contains<T(==)>(s: seq<T>, pat: seq<T>)
  {
    exists i :: 0 <= i <= |s| && OccursAt(s, pat, i)
  }

  function FindFrom<T(==)>(s: seq<T>, pat: seq<T>, from: nat): (r: int)
    requires forall j :: 0 <= j < from ==> !OccursAt(s, pat, j)
    ensures r == -1 ==> forall j :: !OccursAt(s, pat, j)
    ensures r != -1 ==> from <= r && OccursAt(s, pat, r)
    ensures r != -1 ==> forall j :: 0 <= j < r ==> !OccursAt(s, pat, j)
    decreases |s| - from
  {
    if from + |pat| > |s| then -1
    else if s[from..from + |pat|] == pat then from
    else FindFrom(s, pat, from + 1)
  }

  /** `s.find(pat)`: the index of the first occurrence of pat, or -1 when there is none. */
  function Find<T(==)>(s: seq<T>, pat: seq<T>): (r: int)
    ensures r == -1 <==> !Contains(s, pat)
    ensures r != -1 ==> OccursAt(s, pat, r) && forall j :: 0 <= j < r ==> !OccursAt(s, pat, j)
  {
    FindFrom(s, pat, 0)
  }

  /** The first occurrence is the one Find reports. */
  lemma FindFirst<T>(s: seq<T>, pat: seq<T>, i: int)
    requires OccursAt(s, pat, i)
    requires forall j :: 0 <= j < i ==> !OccursAt(s, pat, j)
    ensures Find(s, pat) == i
  {
  }

  /** How Python normalises a slice bound: negatives count from the end, then clamp to [0, len]. */
  function SliceBound(i: int, len: nat): (r: nat)
    ensures r <= len
    ensures 0 <= i <= len ==> r == i
    ensures -(len as int) <= i < 0 ==> r == i + len
    ensures i < -(len as int) ==> r == 0
    ensures i > len ==> r == len
  {
    if i < 0 then (if i + len < 0 then 0 else i + len)
    else if i > len then len
    else i
  }

  /** `s[b:e]` with Python's semantics: never fails, empty when the bounds cross. */
  function PySlice<T>(s: seq<T>, b: int, e: int): seq<T>
  {
    var lo := SliceBound(b, |s|);
    var hi := SliceBound(e, |s|);
    if lo < hi then s[lo..hi] else []
  }

  /** An in-range slice is the plain subsequence. */
  lemma PySliceInRange<T>(s: seq<T>, b: int, e: int)
    requires 0 <= b <= e <= |s|
    ensures PySlice(s, b, e) == s[b..e]
  {
  }

  predicate StartsWith<T(==)>(s: seq<T>, prefix: seq<T>)
  {
    |prefix| <= |s| && s[..|prefix|] == prefix
  }

  predicate EndsWith<T(==)>(s: seq<T>, suffix: seq<T>)
  {
    |suffix| <= |s| && s[|s| - |suffix|..] == suffix
  }

  /** Two concatenations with equally long heads agree on heads and tails. */
  lemma SameLengthPrefix<T>(a1: seq<T>, r1: seq<T>, a2: seq<T>, r2: seq<T>)
    requires |a1| == |a2| && a1 + r1 == a2 + r2
    ensures a1 == a2 && r1 == r2
  {
    assert a1 == (a1 + r1)[..|a1|];
    assert a2 == (a2 + r2)[..|a2|];
    assert r1 == (a1 + r1)[|a1|..];
    assert r2 == (a2 + r2)[|a2|..];
  }

  /** Two concatenations with equally long tails agree on heads and tails. */
  lemma SameLengthSuffix<T>(r1: seq<T>, s1: seq<T>, r2: seq<T>, s2: seq<T>)
    requires |s1| == |s2| && r1 + s1 == r2 + s2
    ensures r1 == r2 && s1 == s2
  {
    assert r1 == (r1 + s1)[..|r1|];
    assert r2 == (r2 + s2)[..|r2|];
    assert s1 == (r1 + s1)[|r1|..];
    assert s2 == (r2 + s2)[|r2|..];
  }

  /** `s[::-1]`. */
  function Reverse<T>(s: seq<T>): (r: seq<T>)
    ensures |r| == |s|
    ensures forall i :: 0 <= i < |s| ==> r[i] == s[|s| - 1 - i]
  {
    if |s| == 0 then [] else [s[|s| - 1]] + Reverse(s[..|s| - 1])
  }

  /** Appending one more piece to a non-empty join adds the separator and the piece. */
  lemma {:induction false} JoinAppend<T>(parts: seq<seq<T>>, p: seq<T>, sep: seq<T>)
    requires |parts| > 0
    ensures Join(parts + [p], sep) == Join(parts, sep) + sep + p
  {
    if |parts| > 1 {
      assert (parts + [p])[1..] == parts[1..] + [p];
      JoinAppend(parts[1..], p, sep);
    } else {
      assert parts + [p] == [parts[0], p];
      assert [parts[0], p][1..] == [p];
    }
  }

  /** Slicing a three-part concatenation at the part boundaries gives the parts back. */
  lemma ThreeParts<T>(a: seq<T>, b: seq<T>, c: seq<T>)
    ensures (a + b + c)[..|a|] == a
    ensures (a + b + c)[|a|..|a| + |b|] == b
    ensures (a + b + c)[|a| + |b|..] == c
  {
  }

  /** Python's `s.replace(c, rep)` for a one-element c: every occurrence of c becomes rep. */
  function Replace<T(==)>(s: seq<T>, c: T, rep: seq<T>): seq<T>
  {
    if |s| == 0 then [] else (if s[0] == c then rep else [s[0]]) + Replace(s[1..], c, rep)
  }

  /** Replacing distributes over concatenation. */
  lemma {:induction false} ReplaceAppend<T>(a: seq<T>, b: seq<T>, c: T, rep: seq<T>)
    ensures Replace(a + b, c, rep) == Replace(a, c, rep) + Replace(b, c, rep)
  {
    if |a| == 0 {
      assert a + b == b;
    } else {
      assert (a + b)[0] == a[0];
      assert (a + b)[1..] == a[1..] + b;
      ReplaceAppend(a[1..], b, c, rep);
    }
  }

  /** Replacing an element that does not occur changes nothing. */
  lemma {:induction false} ReplaceAbsent<T>(s: seq<T>, c: T, rep: seq<T>)
    requires c !in s
    ensures Replace(s, c, rep) == s
  {
    if |s| > 0 {
      ReplaceAbsent(s[1..], c, rep);
    }
  }

  /** s without any occurrence of c. */
  function DropAll<T(==)>(s: seq<T>, c: T): seq<T>
  {
    if |s| == 0 then [] else (if s[0] == c then [] else [s[0]]) + DropAll(s[1..], c)
  }

  /** Nothing equal to c is left, and everything else is kept in order. */
  lemma {:induction false} DropAllRemoves<T>(s: seq<T>, c: T)
    ensures c !in DropAll(s, c)
    ensures |DropAll(s, c)| <= |s|
  {
    if |s| > 0 {
      DropAllRemoves(s[1..], c);
    }
  }

  /** Dropping distributes over concatenation. */
  lemma {:induction false} DropAllAppend<T>(a: seq<T>, b: seq<T>, c: T)
    ensures DropAll(a + b, c) == DropAll(a, c) + DropAll(b, c)
  {
    if |a| == 0 {
      assert a + b == b;
    } else {
      var head: seq<T> := if a[0] == c then [] else [a[0]];
      assert (a + b)[0] == a[0];
      assert (a + b)[1..] == a[1..] + b;
      assert DropAll(a + b, c) == head + DropAll(a[1..] + b, c);
      DropAllAppend(a[1..], b, c);
      assert head + (DropAll(a[1..], c) + DropAll(b, c)) == (head + DropAll(a[1..], c)) + DropAll(b, c);
    }
  }

  /** Dropping an element that does not occur changes nothing. */
  lemma {:induction false} DropAllAbsent<T>(s: seq<T>, c: T)
    requires c !in s
    ensures DropAll(s, c) == s
  {
    if |s| > 0 {
      DropAllAbsent(s[1..], c);
    }
  }

  /** Some element satisfies p iff some element of the front does or the last one does. */
  lemma ExistsSplitLast<T>(s: seq<T>, front: seq<T>, p: T -> bool)
    requires |s| > 0 && front == s[..|s| - 1]
    ensures (exists i :: 0 <= i < |s| && p(s[i])) <==>
      (exists i :: 0 <= i < |front| && p(front[i])) || p(s[|s| - 1])
  {
    if exists i :: 0 <= i < |s| && p(s[i]) {
      var i :| 0 <= i < |s| && p(s[i]);
      if i < |front| {
        assert front[i] == s[i];
      }
    }
    if exists i :: 0 <= i < |front| && p(front[i]) {
      var i :| 0 <= i < |front| && p(front[i]);
      assert s[i] == front[i];
    }
  }

  /** `pat` occurs at i and nowhere before: what `find` reports. */
  predicate FirstAt<T(==)>(s: seq<T>, pat: seq<T>, i: int)
  {
    OccursAt(s, pat, i) && forall j :: 0 <= j < i ==> !OccursAt(s, pat, j)
  }

  /** Slicing a five-part concatenation at the part boundaries gives the parts back. */
  lemma FiveParts<T>(a: seq<T>, b: seq<T>, c: seq<T>, d: seq<T>, e: seq<T>)
    ensures var s := a + b + c + d + e;
      && |s| == |a| + |b| + |c| + |d| + |e|
      && (forall i :: 0 <= i < |a| ==> s[i] == a[i])
      && s[|a|..|a| + |b|] == b
      && (forall i :: 0 <= i < |c| ==> s[|a| + |b| + i] == c[i])
      && s[|a| + |b| + |c|..|a| + |b| + |c| + |d|] == d
      && (forall i :: 0 <= i < |e| ==> s[|a| + |b| + |c| + |d| + i] == e[i])
  {
    var s := a + b + c + d + e;
    assert s == (a + b + c) + d + e;
    ThreeParts(a + b + c, d, e);
    ThreeParts(a, b, c);
  }

  /** Regrouping a right-nested four-part concatenation. */
  lemma ConcatAssoc3<T>(a: seq<T>, b: seq<T>, c: seq<T>, d: seq<T>)
    ensures a + (b + (c + d)) == (a + b + c) + d
  {
  }
}
