/** The parts of Swift's `String` API the views rely on: ordering (`<` and
    `sorted()`), trimming `.whitespaces`, `lowercased()` and
    `replacingOccurrences(of: ",", with: ".")`. */
module Text {
  import opened Records

  /** Swift's `a < b` on strings, as lexicographic order on characters. */
  predicate Precedes(a: string, b: string) {
    if a == [] then b != []
    else b != [] && (a[0] < b[0] || (a[0] == b[0] && Precedes(a[1..], b[1..])))
  }

  lemma {:induction false} PrecedesIrreflexive(a: string)
    ensures !Precedes(a, a)
  {
    if a != [] {
      PrecedesIrreflexive(a[1..]);
    }
  }

  lemma {:induction false} PrecedesTransitive(a: string, b: string, c: string)
    requires Precedes(a, b) && Precedes(b, c)
    ensures Precedes(a, c)
  {
    if a != [] && a[0] == b[0] && b[0] == c[0] {
      PrecedesTransitive(a[1..], b[1..], c[1..]);
    }
  }

  lemma {:induction false} PrecedesTotal(a: string, b: string)
    requires a != b
    ensures Precedes(a, b) || Precedes(b, a)
  {
    if a != [] && b != [] && a[0] == b[0] {
      assert a == [a[0]] + a[1..] && b == [b[0]] + b[1..];
      PrecedesTotal(a[1..], b[1..]);
    }
  }

  /** Strictly ascending: what `Array(Set(names)).sorted()` yields. */
  ghost predicate Ascending(ns: seq<string>) {
    forall i, j :: 0 <= i < j < |ns| ==> Precedes(ns[i], ns[j])
  }

  /** Adds `n` to a strictly ascending list unless it is already there. */
  function InsertName(n: string, ns: seq<string>): (r: seq<string>)
    requires Ascending(ns)
    ensures Ascending(r)
    ensures forall x :: x in r <==> x == n || x in ns
  {
    if ns == [] then [n]
    else if n == ns[0] then ns
    else if Precedes(n, ns[0]) then
      assert forall j :: 0 <= j < |ns| ==> Precedes(n, ns[j]) by {
        forall j | 0 < j < |ns| ensures Precedes(n, ns[j]) {
          PrecedesTransitive(n, ns[0], ns[j]);
        }
      }
      [n] + ns
    else
      PrecedesTotal(n, ns[0]);
      var rest := InsertName(n, ns[1..]);
      assert forall x :: x in rest ==> Precedes(ns[0], x) by {
        forall x | x in rest ensures Precedes(ns[0], x) {
          if x != n {
            var j :| 0 <= j < |ns[1..]| && ns[1..][j] == x;
            assert ns[j + 1] == x;
          }
        }
      }
      [ns[0]] + rest
  }

  /** `Array(Set(ns)).sorted()`: every name of `ns` once, in ascending order. */
  function SortedDistinct(ns: seq<string>): (r: seq<string>)
    ensures Ascending(r)
    ensures forall x :: x in r <==> x in ns
    ensures forall i, j :: 0 <= i < j < |r| ==> r[i] != r[j]
  {
    if ns == [] then []
    else
      var r := InsertName(ns[0], SortedDistinct(ns[1..]));
      assert forall i, j :: 0 <= i < j < |r| ==> r[i] != r[j] by {
        forall i, j | 0 <= i < j < |r| ensures r[i] != r[j] {
          PrecedesIrreflexive(r[i]);
        }
      }
      r
  }

  /** Two strictly ascending lists with the same names are the same list, so
      `SortedDistinct` is the one sorted enumeration of the set of names. */
  lemma {:induction false} AscendingUnique(a: seq<string>, b: seq<string>)
    requires Ascending(a) && Ascending(b)
    requires forall x :: x in a <==> x in b
    ensures a == b
  {
    if a == [] {
      HeadIsMember(b);
    } else {
      assert a[0] in b && b != [] && b[0] in a;
      if a[0] != b[0] {
        var i :| 0 <= i < |a| && a[i] == b[0];
        var j :| 0 <= j < |b| && b[j] == a[0];
        assert Precedes(a[0], b[0]);
        assert Precedes(b[0], a[0]);
        PrecedesTransitive(a[0], b[0], a[0]);
        PrecedesIrreflexive(a[0]);
      }
      forall x ensures x in a[1..] <==> x in b[1..] {
        if x in a[1..] {
          var i :| 0 <= i < |a[1..]| && a[1..][i] == x;
          assert Precedes(a[0], a[i + 1]);
          PrecedesIrreflexive(x);
          assert x in b && x != b[0];
          var j :| 0 <= j < |b| && b[j] == x;
          assert b[1..][j - 1] == x;
        }
        if x in b[1..] {
          var j :| 0 <= j < |b[1..]| && b[1..][j] == x;
          assert Precedes(b[0], b[j + 1]);
          PrecedesIrreflexive(x);
          assert x in a && x != a[0];
          var i :| 0 <= i < |a| && a[i] == x;
          assert a[1..][i - 1] == x;
        }
      }
      AscendingUnique(a[1..], b[1..]);
      assert a == [a[0]] + a[1..] && b == [b[0]] + b[1..];
    }
  }

  /** `CharacterSet.whitespaces`: the tab and the Unicode space separators
      (general category Zs). Line breaks are not in this set. */
  predicate IsWhitespace(c: char) {
    c == '\t' || c == ' ' || c == '\U{00A0}' || c == '\U{1680}'
    || ('\U{2000}' <= c <= '\U{200A}')
    || c == '\U{202F}' || c == '\U{205F}' || c == '\U{3000}'
  }

  /** `s` with its leading whitespace removed. */
  function DropLeading(s: string): (r: string)
    ensures |r| <= |s| && r == s[|s| - |r|..]
    ensures forall i :: 0 <= i < |s| - |r| ==> IsWhitespace(s[i])
    ensures r == [] || !IsWhitespace(r[0])
  {
    if s != [] && IsWhitespace(s[0]) then DropLeading(s[1..]) else s
  }

  /** `s` with its trailing whitespace removed. */
  function DropTrailing(s: string): (r: string)
    ensures |r| <= |s| && r == s[..|r|]
    ensures forall i :: |r| <= i < |s| ==> IsWhitespace(s[i])
    ensures r == [] || !IsWhitespace(r[|r| - 1])
  {
    if s != [] && IsWhitespace(s[|s| - 1]) then DropTrailing(s[..|s| - 1]) else s
  }

  /** `s.trimmingCharacters(in: .whitespaces)`: the inner slice of `s` left once
      the whitespace at both ends is cut off. It is empty exactly when every
      character of `s` is whitespace. */
  function Trim(s: string): (r: string)
    ensures exists a, b :: InnerSlice(s, r, a, b)
    ensures r == [] <==> forall i :: 0 <= i < |s| ==> IsWhitespace(s[i])
    ensures r == [] || (!IsWhitespace(r[0]) && !IsWhitespace(r[|r| - 1]))
  {
    var left := DropLeading(s);
    var r := DropTrailing(left);
    TrimmedIsInnerSlice(s, left, r);
    r
  }

  /** `r` is `s[a..b]` and everything outside that slice is whitespace. */
  predicate InnerSlice(s: string, r: string, a: int, b: int) {
    && 0 <= a <= b <= |s| && r == s[a..b]
    && (forall i :: 0 <= i < |s| && (i < a || b <= i) ==> IsWhitespace(s[i]))
  }

  /** Cutting the leading whitespace of `s` (leaving `left`) and then the
      trailing whitespace of `left` (leaving `r`) leaves the inner slice of `s`
      between its first and last non-whitespace characters: empty exactly when
      `s` is all whitespace. */
  lemma TrimmedIsInnerSlice(s: string, left: string, r: string)
    requires |left| <= |s| && left == s[|s| - |left|..]
    requires forall i :: 0 <= i < |s| - |left| ==> IsWhitespace(s[i])
    requires left == [] || !IsWhitespace(left[0])
    requires |r| <= |left| && r == left[..|r|]
    requires forall i :: |r| <= i < |left| ==> IsWhitespace(left[i])
    requires r == [] || !IsWhitespace(r[|r| - 1])
    ensures InnerSlice(s, r, |s| - |left|, |s| - |left| + |r|)
    ensures r == [] <==> forall i :: 0 <= i < |s| ==> IsWhitespace(s[i])
    ensures r == [] || (!IsWhitespace(r[0]) && !IsWhitespace(r[|r| - 1]))
  {
    var a := |s| - |left|;
    forall i | 0 <= i < |s| && a + |r| <= i ensures IsWhitespace(s[i]) {
      assert s[i] == left[i - a];
    }
    if left != [] {
      assert left[0] == s[a];
    }
    if r != [] {
      assert r[0] == left[0];
    }
  }

  /** Whitespace in front of a name does not survive trimming. */
  lemma {:induction false} DropLeadingPadded(w: string, n: string)
    requires forall i :: 0 <= i < |w| ==> IsWhitespace(w[i])
    ensures DropLeading(w + n) == DropLeading(n)
  {
    if w == [] {
      assert w + n == n;
    } else {
      assert (w + n)[0] == w[0];
      assert (w + n)[1..] == w[1..] + n;
      DropLeadingPadded(w[1..], n);
    }
  }

  /** Whether `s` is empty once trimmed: the "cannot be empty" checks. A name is
      blank exactly when it consists of whitespace only. */
  predicate IsBlank(s: string)
    ensures IsBlank(s) <==> forall i :: 0 <= i < |s| ==> IsWhitespace(s[i])
  {
    Trim(s) == []
  }

  /** `Character.lowercased()` on the Latin capitals: a capital becomes its small
      letter and every other character is kept. */
  function LowerChar(c: char): (l: char)
    ensures 'A' <= c <= 'Z' ==> l as int == c as int + 32
    ensures !('A' <= c <= 'Z') ==> l == c
    ensures !('A' <= l <= 'Z')
  {
    if 'A' <= c <= 'Z' then (c as int + 32) as char else c
  }

  /** `s.lowercased()`: same length, each character lowered by `LowerChar`, so
      each capital replaced by its small letter and every other character
      unchanged. */
  function Lowercased(s: string): (r: string)
    ensures |r| == |s|
    ensures forall i :: 0 <= i < |s| ==> r[i] == LowerChar(s[i])
    ensures forall i :: 0 <= i < |s| && !('A' <= s[i] <= 'Z') ==> r[i] == s[i]
    ensures forall i :: 0 <= i < |r| ==> !('A' <= r[i] <= 'Z')
  {
    if s == [] then [] else [LowerChar(s[0])] + Lowercased(s[1..])
  }

  /** Two characters that are equal, or a capital and its small letter. */
  predicate CaseMates(c: char, d: char) {
    c == d
    || ('A' <= c <= 'Z' && d as int == c as int + 32)
    || ('A' <= d <= 'Z' && c as int == d as int + 32)
  }

  /** Two strings that differ at most in the case of their Latin letters. */
  predicate SameIgnoringCase(a: string, b: string) {
    |a| == |b| && forall k :: 0 <= k < |a| ==> CaseMates(a[k], b[k])
  }

  /** Two characters lower alike exactly when they are case mates. */
  lemma LowerCharEqualIff(c: char, d: char)
    ensures LowerChar(c) == LowerChar(d) <==> CaseMates(c, d)
  {
  }

  /** Comparing lowered strings is comparing them up to the case of their Latin
      letters: equal lowerings exactly for strings that differ only in case. */
  lemma LowercasedEqualIff(a: string, b: string)
    ensures Lowercased(a) == Lowercased(b) <==> SameIgnoringCase(a, b)
  {
    var la, lb := Lowercased(a), Lowercased(b);
    if |a| == |b| {
      forall k | 0 <= k < |a| ensures la[k] == lb[k] <==> CaseMates(a[k], b[k]) {
        LowerCharEqualIff(a[k], b[k]);
      }
      if SameIgnoringCase(a, b) {
        assert la == lb;
      }
    }
  }

  /** `s.replacingOccurrences(of: ",", with: ".")`: a decimal comma becomes a
      decimal point and nothing else changes. */
  function CommasToDots(s: string): (r: string)
    ensures |r| == |s| && ',' !in r
    ensures forall i :: 0 <= i < |s| ==> r[i] == (if s[i] == ',' then '.' else s[i])
  {
    if s == [] then [] else [if s[0] == ',' then '.' else s[0]] + CommasToDots(s[1..])
  }
}
