/**
 * The Python string and list built-ins that the scripts lean on, written out so
 * that their edge cases are explicit: substring containment (`sub in s`),
 * `s.find`, `s.split(sep)` for a non-empty separator, slicing with negative or
 * out-of-range bounds, `s.replace`, `s.lower()` and `c.isdigit()` (both on
 * ASCII), `xs.index(x)` and `xs.count(x)`.
 */
module PyStr {
  import opened Wrappers

  /** Python's `s.startswith(p)`. */
  predicate StartsWith(s: string, p: string)
  {
    |p| <= |s| && s[..|p|] == p
  }

  /** `sub` occurs in `s` at position `i`. */
  ghost predicate OccursAt(s: string, sub: string, i: int)
  {
    0 <= i && i + |sub| <= |s| && s[i..i + |sub|] == sub
  }

  /** Python's `sub in s` on strings. */
  predicate Contains(s: string, sub: string)
    decreases |s|
  {
    StartsWith(s, sub) || (|s| > 0 && Contains(s[1..], sub))
  }

  lemma OccursAtShift(s: string, sub: string, i: int)
    requires |s| > 0 && 0 <= i
    ensures OccursAt(s[1..], sub, i) <==> OccursAt(s, sub, i + 1)
  {
    if i + |sub| <= |s| - 1 {
      assert s[1..][i..i + |sub|] == s[i + 1..i + 1 + |sub|];
    }
  }

  /** Containment means that there is a position where `sub` occurs. */
  lemma {:induction false} ContainsIff(s: string, sub: string)
    ensures Contains(s, sub) <==> exists i :: OccursAt(s, sub, i)
    decreases |s|
  {
    if StartsWith(s, sub) {
      assert OccursAt(s, sub, 0);
    } else {
      assert !OccursAt(s, sub, 0);
      if |s| > 0 {
        ContainsIff(s[1..], sub);
        if exists i :: OccursAt(s[1..], sub, i) {
          var i :| OccursAt(s[1..], sub, i);
          OccursAtShift(s, sub, i);
        }
        if exists i :: OccursAt(s, sub, i) {
          var i :| OccursAt(s, sub, i);
          OccursAtShift(s, sub, i - 1);
        }
      }
    }
  }

  /** An occurrence in `a + b` lies in `a`, lies in `b`, or straddles the seam. */
  lemma OccursInConcat(a: string, b: string, sub: string, i: int)
    ensures OccursAt(a + b, sub, i) ==>
      OccursAt(a, sub, i) || OccursAt(b, sub, i - |a|)
      || (i < |a| < i + |sub| && a[|a| - 1] in sub && b[0] in sub)
  {
    var s := a + b;
    if 0 <= i && i + |sub| <= |s| {
      if i + |sub| <= |a| {
        assert s[i..i + |sub|] == a[i..i + |sub|];
      } else if i >= |a| {
        assert s[i..i + |sub|] == b[i - |a|..i - |a| + |sub|];
      } else {
        assert s[i..i + |sub|][|a| - 1 - i] == a[|a| - 1];
        assert s[i..i + |sub|][|a| - i] == b[0];
      }
    }
  }

  /** Concatenation creates no occurrence when one side of the seam is a character foreign to `sub`. */
  lemma NotContainsConcat(a: string, b: string, sub: string)
    requires !Contains(a, sub) && !Contains(b, sub)
    requires a == "" || b == "" || a[|a| - 1] !in sub || b[0] !in sub
    ensures !Contains(a + b, sub)
  {
    ContainsIff(a, sub);
    ContainsIff(b, sub);
    ContainsIff(a + b, sub);
    forall i ensures !OccursAt(a + b, sub, i) {
      OccursInConcat(a, b, sub, i);
    }
  }

  /** A string contains whatever sits between two of its parts. */
  lemma ContainsMiddle(a: string, b: string, c: string)
    ensures Contains(a + b + c, b)
  {
    assert (a + b + c)[|a|..|a| + |b|] == b;
    assert OccursAt(a + b + c, b, |a|);
    ContainsIff(a + b + c, b);
  }

  /** Whatever a suffix contains, the whole string contains. */
  lemma {:induction false} ContainsInSuffix(a: string, b: string, sub: string)
    requires Contains(b, sub)
    ensures Contains(a + b, sub)
    decreases |a|
  {
    if a != [] {
      ContainsInSuffix(a[1..], b, sub);
      assert (a + b)[1..] == a[1..] + b;
    } else {
      assert a + b == b;
    }
  }

  /** Containment is transitive: a part of a part is a part. */
  lemma ContainsTransitive(a: string, b: string, c: string)
    requires Contains(a, b) && Contains(b, c)
    ensures Contains(a, c)
  {
    ContainsIff(a, b);
    ContainsIff(b, c);
    var i :| OccursAt(a, b, i);
    var j :| OccursAt(b, c, j);
    forall k | 0 <= k < |c| ensures a[i + j + k] == c[k] {
      assert a[i..i + |b|][j + k] == b[j + k];
      assert b[j..j + |c|][k] == b[j + k];
    }
    assert a[i + j..i + j + |c|] == c;
    assert OccursAt(a, c, i + j);
    ContainsIff(a, c);
  }

  /** A string lacking one of the characters of `sub` cannot contain `sub`. */
  lemma NotContainsByChar(s: string, sub: string, c: char)
    requires c in sub && c !in s
    ensures !Contains(s, sub)
  {
    ContainsIff(s, sub);
    var k :| 0 <= k < |sub| && sub[k] == c;
    forall i ensures !OccursAt(s, sub, i) {
      if 0 <= i && i + |sub| <= |s| {
        assert s[i..i + |sub|][k] == s[i + k];
        assert s[i + k] in s;
      }
    }
  }

  /** Python's `s.find(sep)`: the first position where `sep` occurs, or -1. */
  function Find(s: string, sep: string): (r: int)
    ensures -1 <= r
    ensures r >= 0 ==> r + |sep| <= |s|
    decreases |s|
  {
    if StartsWith(s, sep) then 0
    else if |s| == 0 then -1
    else
      var r := Find(s[1..], sep);
      if r < 0 then -1 else r + 1
  }

  /** `Find` returns the first occurrence, and -1 exactly when there is none. */
  lemma {:induction false} FindIsFirst(s: string, sep: string)
    ensures Find(s, sep) >= 0 ==> OccursAt(s, sep, Find(s, sep))
    ensures forall i :: 0 <= i && (Find(s, sep) < 0 || i < Find(s, sep)) ==> !OccursAt(s, sep, i)
    decreases |s|
  {
    if StartsWith(s, sep) {
      assert OccursAt(s, sep, 0);
    } else {
      assert !OccursAt(s, sep, 0);
      if |s| > 0 {
        FindIsFirst(s[1..], sep);
        var r := Find(s[1..], sep);
        if r >= 0 {
          OccursAtShift(s, sep, r);
        }
        forall i | 0 < i && (Find(s, sep) < 0 || i < Find(s, sep))
          ensures !OccursAt(s, sep, i)
        {
          OccursAtShift(s, sep, i - 1);
        }
      }
    }
  }

  lemma FindAt(s: string, sep: string, k: int)
    requires OccursAt(s, sep, k)
    requires forall i :: 0 <= i < k ==> !OccursAt(s, sep, i)
    ensures Find(s, sep) == k
  {
    FindIsFirst(s, sep);
  }

  lemma ContainsFind(s: string, sep: string)
    ensures Contains(s, sep) <==> Find(s, sep) >= 0
  {
    FindIsFirst(s, sep);
    ContainsIff(s, sep);
  }

  /** Python's `s.split(sep)` for a non-empty separator. */
  function Split(s: string, sep: string): (parts: seq<string>)
    requires sep != ""
    ensures |parts| >= 1
    decreases |s|
  {
    var i := Find(s, sep);
    if i < 0 then [s] else [s[..i]] + Split(s[i + |sep|..], sep)
  }

  /** `x` holds no `sep` and cannot start an occurrence that runs into what follows it. */
  predicate ClosedBefore(x: string, sep: string)
  {
    !Contains(x, sep) && (x == "" || x[|x| - 1] !in sep)
  }

  /** The first piece of `x + sep + y` is `x` when `x` is closed before `sep`. */
  lemma SplitCons(x: string, sep: string, y: string)
    requires sep != "" && ClosedBefore(x, sep)
    ensures Split(x + sep + y, sep) == [x] + Split(y, sep)
  {
    var s := x + sep + y;
    ContainsIff(x, sep);
    assert s[|x|..|x| + |sep|] == sep;
    assert s == x + (sep + y);
    forall i | 0 <= i < |x| ensures !OccursAt(s, sep, i) {
      OccursInConcat(x, sep + y, sep, i);
    }
    FindAt(s, sep, |x|);
    assert s[..|x|] == x;
    assert s[|x| + |sep|..] == y;
  }

  /** A string without `sep` splits into itself alone. */
  lemma SplitSingle(y: string, sep: string)
    requires sep != "" && !Contains(y, sep)
    ensures Split(y, sep) == [y]
  {
    ContainsFind(y, sep);
  }

  lemma SplitThreeNested(a: string, b: string, c: string, sep: string)
    requires sep != "" && ClosedBefore(a, sep) && ClosedBefore(b, sep) && !Contains(c, sep)
    ensures Split(a + sep + (b + sep + c), sep) == [a, b, c]
  {
    SplitSingle(c, sep);
    SplitCons(b, sep, c);
    SplitCons(a, sep, b + sep + c);
  }

  /** Regrouping a five-part concatenation, kept apart from the facts about `Split`. */
  lemma ConcatFive(a: string, b: string, c: string, d: string, e: string)
    ensures a + b + c + d + e == a + b + (c + d + e)
  {
  }

  /** Three pieces closed before the separator and joined by it split back into themselves. */
  lemma SplitThree(a: string, b: string, c: string, sep: string)
    requires sep != "" && ClosedBefore(a, sep) && ClosedBefore(b, sep) && !Contains(c, sep)
    ensures Split(a + sep + b + sep + c, sep) == [a, b, c]
  {
    ConcatFive(a, sep, b, sep, c);
    SplitThreeNested(a, b, c, sep);
  }

  /** Python's normalisation of a slice bound against a length `n`. */
  function SliceBound(i: int, n: nat): (b: nat)
    ensures b <= n
  {
    if i < 0 then (if i + n < 0 then 0 else i + n)
    else if i > n then n
    else i
  }

  /** Python's `s[lo:hi]`. */
  function Slice<T>(s: seq<T>, lo: int, hi: int): (r: seq<T>)
    ensures |r| <= |s|
  {
    var a, b := SliceBound(lo, |s|), SliceBound(hi, |s|);
    if a < b then s[a..b] else []
  }

  /** Python's `s.replace(pat, rep)`: every non-overlapping occurrence, left to right. */
  function Replace(s: string, pat: string, rep: string): string
    requires pat != ""
    decreases |s|
  {
    if StartsWith(s, pat) then rep + Replace(s[|pat|..], pat, rep)
    else if s == "" then ""
    else [s[0]] + Replace(s[1..], pat, rep)
  }

  /** Replacing a pattern that does not occur changes nothing. */
  lemma {:induction false} ReplaceAbsent(s: string, pat: string, rep: string)
    requires pat != "" && !Contains(s, pat)
    ensures Replace(s, pat, rep) == s
    decreases |s|
  {
    if s != "" {
      ReplaceAbsent(s[1..], pat, rep);
    }
  }

  predicate IsUpper(c: char) { 'A' <= c <= 'Z' }

  /** Python's `c.isdigit()`, restricted to ASCII. */
  predicate IsDigit(c: char) { '0' <= c <= '9' }

  function LowerChar(c: char): char
  {
    if IsUpper(c) then (c as int + 32) as char else c
  }

  /** Python's `s.lower()`, restricted to ASCII letters. */
  function Lower(s: string): (r: string)
  {
    seq(|s|, i requires 0 <= i < |s| => LowerChar(s[i]))
  }

  /** Lower-casing keeps the length, leaves no upper-case letter and is idempotent. */
  lemma LowerProperties(s: string)
    ensures |Lower(s)| == |s|
    ensures forall c :: c in Lower(s) ==> !IsUpper(c)
    ensures Lower(Lower(s)) == Lower(s)
  {
  }

  /** A string without upper-case letters is its own lower-case form. */
  lemma LowerNoUpper(s: string)
    requires forall c :: c in s ==> !IsUpper(c)
    ensures Lower(s) == s
  {
    forall i | 0 <= i < |s| ensures Lower(s)[i] == s[i] {
      assert s[i] in s;
    }
  }

  /** Python's `xs.index(x)`: the first position of `x`, or None where Python raises ValueError. */
  function ListIndex<T(==)>(xs: seq<T>, x: T): (r: Option<nat>)
    ensures r.Some? ==> r.value < |xs| && xs[r.value] == x
    ensures r.Some? ==> forall j :: 0 <= j < r.value ==> xs[j] != x
    ensures r.None? <==> x !in xs
  {
    if |xs| == 0 then None
    else if xs[0] == x then Some(0)
    else match ListIndex(xs[1..], x)
      case None => None
      case Some(k) => Some(k + 1)
  }

  /** Python's `xs.count(x)`. */
  function Count<T(==)>(xs: seq<T>, x: T): (n: nat)
    ensures n == 0 <==> x !in xs
  {
    if |xs| == 0 then 0
    else (if xs[0] == x then 1 else 0) + Count(xs[1..], x)
  }
}
