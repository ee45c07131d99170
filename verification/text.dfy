/** ASCII stand-ins for the Python string operations the core relies on:
    str.lower, str.strip, `in` on strings, str.startswith, decimal rendering
    of integers and "\n".join. */
module Text {

  /** Python's str.isspace, restricted to ASCII: space, \t \n \v \f \r and the
      four separator controls \x1c-\x1f. */
  predicate IsSpace(c: char) {
    var n := c as int;
    n == 32 || (9 <= n <= 13) || (28 <= n <= 31)
  }

  function LowerChar(c: char): char {
    if 'A' <= c <= 'Z' then (c as int + 32) as char else c
  }

  /** str.lower over ASCII. */
  function Lower(s: string): (r: string)
    ensures |r| == |s|
    ensures forall i :: 0 <= i < |s| ==> r[i] == LowerChar(s[i])
  {
    seq(|s|, i requires 0 <= i < |s| => LowerChar(s[i]))
  }

  predicate IsLowerCase(s: string) {
    forall i :: 0 <= i < |s| ==> LowerChar(s[i]) == s[i]
  }

  lemma LowerIsLowerCase(s: string)
    ensures IsLowerCase(Lower(s))
  {
  }

  /** Lowering works character by character, so it distributes over
      concatenation. */
  lemma LowerAppend(a: string, b: string)
    ensures Lower(a + b) == Lower(a) + Lower(b)
  {
  }

  /** Lowering a string that is already lower-case changes nothing. */
  lemma LowerOfLowerCase(s: string)
    requires IsLowerCase(s)
    ensures Lower(s) == s
  {
  }

  function TrimStart(s: string): (r: string)
    ensures |r| <= |s| && r == s[|s| - |r|..]
    ensures r == [] || !IsSpace(r[0])
  {
    if |s| > 0 && IsSpace(s[0]) then TrimStart(s[1..]) else s
  }

  function TrimEnd(s: string): (r: string)
    ensures |r| <= |s| && r == s[..|r|]
    ensures r == [] || !IsSpace(r[|r| - 1])
  {
    if |s| > 0 && IsSpace(s[|s| - 1]) then TrimEnd(s[..|s| - 1]) else s
  }

  /** str.strip() with no argument, over ASCII whitespace. */
  function Strip(s: string): (r: string)
  {
    TrimEnd(TrimStart(s))
  }

  /** The stripped string is a contiguous piece of the input with no
      whitespace at either end. */
  lemma StripShape(s: string)
    ensures var r := Strip(s);
      && (r == [] || (!IsSpace(r[0]) && !IsSpace(r[|r| - 1])))
      && exists lo | 0 <= lo <= |s| - |r| :: OccursAt(s, r, lo)
  {
    var t := TrimStart(s);
    var r := TrimEnd(t);
    var lo := |s| - |t|;
    assert t == s[lo..] && r == t[..|r|];
    assert s[lo..][..|r|] == s[lo..lo + |r|];
    assert OccursAt(s, r, lo);
  }

  /** Stripping twice is stripping once. */
  lemma StripIdempotent(s: string)
    ensures Strip(Strip(s)) == Strip(s)
  {
    var r := Strip(s);
    assert r == [] || !IsSpace(r[0]) by { StripShape(s); }
    assert TrimStart(r) == r;
    assert r == [] || !IsSpace(r[|r| - 1]) by { StripShape(s); }
    assert TrimEnd(r) == r;
  }

  /** A piece of a lower-case string is lower-case. */
  lemma SliceOfLowerCase(s: string, lo: int, hi: int)
    requires IsLowerCase(s) && 0 <= lo <= hi <= |s|
    ensures IsLowerCase(s[lo..hi])
  {
    forall i | 0 <= i < hi - lo
      ensures LowerChar(s[lo..hi][i]) == s[lo..hi][i]
    {
      assert s[lo..hi][i] == s[lo + i];
    }
  }

  lemma StripOfLowerCase(s: string)
    requires IsLowerCase(s)
    ensures IsLowerCase(Strip(s))
  {
    StripShape(s);
    var r := Strip(s);
    var lo :| 0 <= lo <= |s| - |r| && OccursAt(s, r, lo);
    SliceOfLowerCase(s, lo, lo + |r|);
  }

  predicate StartsWith(s: string, prefix: string) {
    |prefix| <= |s| && s[..|prefix|] == prefix
  }

  predicate EndsWith(s: string, suffix: string) {
    |suffix| <= |s| && s[|s| - |suffix|..] == suffix
  }

  predicate OccursAt(s: string, part: string, i: int) {
    0 <= i && i + |part| <= |s| && s[i..i + |part|] == part
  }

  /** Python's `part in s` for strings. */
  predicate Contains(s: string, part: string) {
    exists i | 0 <= i <= |s| - |part| :: OccursAt(s, part, i)
  }

  /** The empty string occurs in every string. */
  lemma ContainsEmpty(s: string)
    ensures Contains(s, "")
  {
    assert OccursAt(s, "", 0);
  }

  /** Only the empty string occurs in the empty string. */
  lemma ContainedInEmpty(part: string)
    requires Contains("", part)
    ensures part == ""
  {
  }

  /** A string occurs in any concatenation that places it somewhere. */
  lemma ContainsPiece(a: string, part: string, b: string)
    ensures Contains(a + part + b, part)
  {
    assert OccursAt(a + part + b, part, |a|);
  }

  function DigitChar(d: nat): (c: char)
    requires d < 10
    ensures c as int == '0' as int + d
  {
    ('0' as int + d) as char
  }

  predicate IsDigit(c: char) {
    '0' <= c <= '9'
  }

  /** Decimal rendering of a natural number, as f"{n}" prints it. */
  function NatToString(n: nat): (r: string)
    ensures |r| > 0
    ensures forall i :: 0 <= i < |r| ==> IsDigit(r[i])
    ensures |r| == 1 <==> n < 10
  {
    if n < 10 then [DigitChar(n)] else NatToString(n / 10) + [DigitChar(n % 10)]
  }

  /** Decimal rendering of an integer, with a leading '-' when negative. */
  function IntToString(n: int): string {
    if n < 0 then "-" + NatToString(-n) else NatToString(n)
  }

  /** Distinct numbers have distinct decimal renderings. */
  lemma {:induction false} NatToStringInjective(a: nat, b: nat)
    requires NatToString(a) == NatToString(b)
    ensures a == b
    decreases a
  {
    var ra, rb := NatToString(a), NatToString(b);
    if a < 10 {
      assert |rb| == 1;
    } else {
      assert |rb| == |ra| > 1;
      assert b >= 10;
      assert ra[|ra| - 1] == DigitChar(a % 10) && rb[|rb| - 1] == DigitChar(b % 10);
      assert a % 10 == b % 10;
      assert NatToString(a / 10) == ra[..|ra| - 1] == rb[..|rb| - 1] == NatToString(b / 10);
      NatToStringInjective(a / 10, b / 10);
    }
  }

  /** Two-digit zero-padded rendering, as strftime's %m and %d print. */
  function Pad2(n: nat): (r: string)
    requires n < 100
  {
    [DigitChar(n / 10), DigitChar(n % 10)]
  }

  lemma Pad2Injective(a: nat, b: nat)
    requires a < 100 && b < 100 && Pad2(a) == Pad2(b)
    ensures a == b
  {
    assert DigitChar(a / 10) == DigitChar(b / 10);
    assert DigitChar(a % 10) == DigitChar(b % 10);
  }

  /** sep.join(parts). */
  function Join(sep: string, parts: seq<string>): string
    decreases |parts|
  {
    if |parts| == 0 then ""
    else if |parts| == 1 then parts[0]
    else Join(sep, parts[..|parts| - 1]) + sep + parts[|parts| - 1]
  }

  /** The pieces of a message, one after another. */
  function Concat(parts: seq<string>): string
    decreases |parts|
  {
    if parts == [] then "" else parts[0] + Concat(parts[1..])
  }

  lemma ConcatCons(x: string, rest: seq<string>)
    ensures Concat([x] + rest) == x + Concat(rest)
  {
    assert ([x] + rest)[1..] == rest;
  }

  /** Seven pieces joined are the pieces appended from the left. */
  lemma {:induction false} ConcatSeven(a: string, b: string, c: string, d: string, e: string, f: string, g: string)
    ensures Concat([a, b, c, d, e, f, g]) == a + b + c + d + e + f + g
  {
    ConcatCons(g, []);
    ConcatCons(f, [g]);
    ConcatCons(e, [f, g]);
    ConcatCons(d, [e, f, g]);
    ConcatCons(c, [d, e, f, g]);
    ConcatCons(b, [c, d, e, f, g]);
    ConcatCons(a, [b, c, d, e, f, g]);
    assert [a] + [b, c, d, e, f, g] == [a, b, c, d, e, f, g];
    assert [b] + [c, d, e, f, g] == [b, c, d, e, f, g];
    assert [c] + [d, e, f, g] == [c, d, e, f, g];
    assert [d] + [e, f, g] == [d, e, f, g];
    assert [e] + [f, g] == [e, f, g];
    assert [f] + [g] == [f, g];
    assert [g] + [] == [g];
  }

  /** Lowering is idempotent. */
  lemma LowerTwice(s: string)
    ensures Lower(Lower(s)) == Lower(s)
  {
    LowerIsLowerCase(s);
    LowerOfLowerCase(Lower(s));
  }

  /** Lowering never turns a non-space into a space or back. */
  lemma LowerCharSpace(c: char)
    ensures IsSpace(LowerChar(c)) == IsSpace(c)
  {
  }

  lemma {:induction false} LowerTrimStart(s: string)
    ensures TrimStart(Lower(s)) == Lower(TrimStart(s))
    decreases |s|
  {
    if |s| > 0 {
      var l := Lower(s);
      LowerCharSpace(s[0]);
      if IsSpace(s[0]) {
        assert l[1..] == Lower(s[1..]);
        assert TrimStart(l) == TrimStart(l[1..]);
        LowerTrimStart(s[1..]);
      }
    }
  }

  lemma {:induction false} LowerTrimEnd(s: string)
    ensures TrimEnd(Lower(s)) == Lower(TrimEnd(s))
    decreases |s|
  {
    if |s| > 0 {
      var l := Lower(s);
      LowerCharSpace(s[|s| - 1]);
      if IsSpace(s[|s| - 1]) {
        assert l[..|s| - 1] == Lower(s[..|s| - 1]);
        assert TrimEnd(l) == TrimEnd(l[..|s| - 1]);
        LowerTrimEnd(s[..|s| - 1]);
      }
    }
  }

  /** Lowering and stripping commute, so lowering a message before or after
      stripping it makes no difference. */
  lemma LowerStripCommute(s: string)
    ensures Strip(Lower(s)) == Lower(Strip(s))
  {
    LowerTrimStart(s);
    LowerTrimEnd(TrimStart(s));
  }

  /** A decimal rendering followed by a non-digit can be read back: two such
      strings are equal only if the numbers are. */
  lemma NatToStringBoundary(a: nat, x: string, b: nat, y: string)
    requires |x| > 0 && |y| > 0 && !IsDigit(x[0]) && !IsDigit(y[0])
    requires NatToString(a) + x == NatToString(b) + y
    ensures a == b && x == y
  {
    var na, nb := NatToString(a), NatToString(b);
    assert na == (na + x)[..|na|] == (nb + y)[..|nb|] == nb;
    NatToStringInjective(a, b);
    assert x == (na + x)[|na|..] == (nb + y)[|nb|..] == y;
  }

  /** Joining a first part onto the rest. */
  lemma {:induction false} JoinPrepend(sep: string, first: string, rest: seq<string>)
    requires rest != []
    ensures Join(sep, [first] + rest) == first + sep + Join(sep, rest)
    decreases |rest|
  {
    var all := [first] + rest;
    if |rest| == 1 {
      assert all[..1] == [first];
    } else {
      var init := rest[..|rest| - 1];
      assert all[..|all| - 1] == [first] + init;
      JoinPrepend(sep, first, init);
    }
  }

  /** Every part occurs in the joined string. */
  lemma {:induction false} JoinContains(sep: string, parts: seq<string>, i: int)
    requires 0 <= i < |parts|
    ensures Contains(Join(sep, parts), parts[i])
    decreases |parts|
  {
    var n := |parts|;
    if n == 1 {
      assert Join(sep, parts) == "" + parts[0] + "";
      ContainsPiece("", parts[0], "");
    } else if i == n - 1 {
      assert Join(sep, parts) == Join(sep, parts[..n - 1]) + sep + parts[i] + "";
      ContainsPiece(Join(sep, parts[..n - 1]) + sep, parts[i], "");
    } else {
      JoinContains(sep, parts[..n - 1], i);
      var j :| 0 <= j <= |Join(sep, parts[..n - 1])| - |parts[i]| && OccursAt(Join(sep, parts[..n - 1]), parts[i], j);
      var whole := Join(sep, parts);
      assert whole[..|Join(sep, parts[..n - 1])|] == Join(sep, parts[..n - 1]);
      assert OccursAt(whole, parts[i], j);
    }
  }

  lemma {:induction false} TrimStartEmpty(s: string)
    ensures TrimStart(s) == [] <==> forall i :: 0 <= i < |s| ==> IsSpace(s[i])
    decreases |s|
  {
    if |s| > 0 {
      TrimStartEmpty(s[1..]);
      assert forall i :: 1 <= i < |s| ==> s[i] == s[1..][i - 1];
    }
  }

  lemma {:induction false} TrimEndEmpty(s: string)
    ensures TrimEnd(s) == [] <==> forall i :: 0 <= i < |s| ==> IsSpace(s[i])
    decreases |s|
  {
    if |s| > 0 {
      TrimEndEmpty(s[..|s| - 1]);
      assert forall i :: 0 <= i < |s| - 1 ==> s[i] == s[..|s| - 1][i];
    }
  }

  /** Only a string made entirely of whitespace strips to nothing. */
  lemma StripEmpty(s: string)
    ensures Strip(s) == [] <==> forall i :: 0 <= i < |s| ==> IsSpace(s[i])
  {
    TrimStartEmpty(s);
    TrimEndEmpty(TrimStart(s));
  }

  /** A string with no whitespace at either end is its own strip. */
  lemma StripOfTrimmed(s: string)
    requires s != [] && !IsSpace(s[0]) && !IsSpace(s[|s| - 1])
    ensures Strip(s) == s
  {
  }

  /** The last character of a stripped, lowered string is no whitespace. */
  lemma LowerStripEnd(s: string)
    ensures var t := Lower(Strip(s)); t == [] || !IsSpace(t[|t| - 1])
  {
    StripShape(s);
    var r := Strip(s);
    if r != [] {
      LowerCharSpace(r[|r| - 1]);
    }
  }

  lemma StartsWithAppend(a: string, b: string)
    ensures StartsWith(a + b, a)
  {
  }

  lemma StartsWithExtend(x: string, y: string, p: string)
    requires StartsWith(x, p)
    ensures StartsWith(x + y, p)
  {
    assert (x + y)[..|p|] == x[..|p|];
  }

  lemma ContainsEnd(a: string, part: string)
    ensures Contains(a + part, part)
  {
    assert OccursAt(a + part, part, |a|);
  }

  lemma ContainsExtendRight(x: string, y: string, part: string)
    requires Contains(x, part)
    ensures Contains(x + y, part)
  {
    var i :| 0 <= i <= |x| - |part| && OccursAt(x, part, i);
    assert (x + y)[i..i + |part|] == x[i..i + |part|];
    assert OccursAt(x + y, part, i);
  }

  lemma ContainsExtendLeft(x: string, y: string, part: string)
    requires Contains(y, part)
    ensures Contains(x + y, part)
  {
    var i :| 0 <= i <= |y| - |part| && OccursAt(y, part, i);
    assert (x + y)[|x| + i..|x| + i + |part|] == y[i..i + |part|];
    assert OccursAt(x + y, part, |x| + i);
  }

  /** A string has no occurrence of a part whose last character it never
      holds at a position where that part could end. */
  lemma NotContainsByLast(s: string, part: string)
    requires |part| > 0
    requires forall j | |part| - 1 <= j < |s| :: s[j] != part[|part| - 1]
    ensures !Contains(s, part)
  {
    forall i | 0 <= i <= |s| - |part|
      ensures !OccursAt(s, part, i)
    {
      assert s[i..i + |part|][|part| - 1] == s[i + |part| - 1];
    }
  }

  lemma AppendCancel(h: string, x: string, y: string)
    requires h + x == h + y
    ensures x == y
  {
    assert x == (h + x)[|h|..];
    assert y == (h + y)[|h|..];
  }

  /** A string laid out as three pieces between fixed separators contains
      each piece and starts with the first separator. */
  lemma ThreePieces(p0: string, x1: string, p1: string, x2: string, p2: string, x3: string, p3: string)
    ensures var t := p0 + x1 + p1 + x2 + p2 + x3 + p3;
      StartsWith(t, p0) && Contains(t, x1) && Contains(t, x2) && Contains(t, x3)
  {
    var a := p0 + x1;
    var b := a + p1 + x2;
    var c := b + p2 + x3;
    StartsWithAppend(p0, x1);
    StartsWithExtend(a, p1, p0);
    StartsWithExtend(a + p1, x2, p0);
    StartsWithExtend(b, p2, p0);
    StartsWithExtend(b + p2, x3, p0);
    StartsWithExtend(c, p3, p0);
    ContainsEnd(p0, x1);
    ContainsExtendRight(a, p1, x1);
    ContainsExtendRight(a + p1, x2, x1);
    ContainsExtendRight(b, p2, x1);
    ContainsExtendRight(b + p2, x3, x1);
    ContainsExtendRight(c, p3, x1);
    ContainsEnd(a + p1, x2);
    ContainsExtendRight(b, p2, x2);
    ContainsExtendRight(b + p2, x3, x2);
    ContainsExtendRight(c, p3, x2);
    ContainsEnd(b + p2, x3);
    ContainsExtendRight(c, p3, x3);
  }

  /** A prefix of the tail extends to a prefix of the whole. */
  lemma StartsWithAfter(h: string, x: string, body: string, p: string)
    requires StartsWith(body, p)
    ensures StartsWith(h + (x + body), h + x + p)
  {
    assert (h + (x + body))[..|h + x + p|] == h + x + body[..|p|];
  }
}
