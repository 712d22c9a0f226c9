/**
 * The JavaScript string primitives the URL engine relies on: `String.prototype.trim`,
 * `toLowerCase` on host names, `includes`, the first-occurrence `replace`, `Array.prototype.join`
 * and the default string order used by `Array.prototype.sort`.
 */
module Strings {

  /** ECMAScript WhiteSpace and LineTerminator code points: the set `trim` removes. */
  predicate IsWhitespace(c: char) {
    c == '\t' || c == '\n' || c == '\U{000B}' || c == '\U{000C}' || c == '\r' || c == ' '
    || c == '\U{00A0}' || c == '\U{1680}' || ('\U{2000}' <= c <= '\U{200A}')
    || c == '\U{2028}' || c == '\U{2029}' || c == '\U{202F}' || c == '\U{205F}'
    || c == '\U{3000}' || c == '\U{FEFF}'
  }

  predicate IsAsciiLetter(c: char) {
    ('a' <= c <= 'z') || ('A' <= c <= 'Z')
  }

  predicate IsAsciiDigit(c: char) {
    '0' <= c <= '9'
  }

  predicate IsAsciiAlphanumeric(c: char) {
    IsAsciiLetter(c) || IsAsciiDigit(c)
  }

  /** Drops leading white space. */
  function TrimStart(s: string): (r: string)
    ensures |r| <= |s| && r == s[|s| - |r|..]
    ensures r == [] || !IsWhitespace(r[0])
    ensures forall k :: 0 <= k < |s| - |r| ==> IsWhitespace(s[k])
  {
    if |s| > 0 && IsWhitespace(s[0]) then TrimStart(s[1..]) else s
  }

  /** Drops trailing white space. */
  function TrimEnd(s: string): (r: string)
    ensures |r| <= |s| && r == s[..|r|]
    ensures r == [] || !IsWhitespace(r[|r| - 1])
    ensures forall k :: |r| <= k < |s| ==> IsWhitespace(s[k])
  {
    if |s| > 0 && IsWhitespace(s[|s| - 1]) then TrimEnd(s[..|s| - 1]) else s
  }

  /** `s.trim()`. */
  function Trim(s: string): (r: string)
    ensures r == [] || (!IsWhitespace(r[0]) && !IsWhitespace(r[|r| - 1]))
  {
    TrimEnd(TrimStart(s))
  }

  /** A string with no white space at either end is its own trim. */
  lemma TrimOfTrimmed(s: string)
    requires s == [] || (!IsWhitespace(s[0]) && !IsWhitespace(s[|s| - 1]))
    ensures Trim(s) == s
  {
  }

  /**
   * Trimming never touches a prefix that ends in a non-space character and does not
   * start with white space.
   */
  lemma TrimKeepsPrefix(s: string, p: string)
    requires p <= s && |p| > 0 && !IsWhitespace(p[0]) && !IsWhitespace(p[|p| - 1])
    ensures p <= Trim(s)
  {
    assert TrimStart(s) == s;
  }

  /** `toLowerCase` restricted to ASCII: host names from the URL parser are ASCII. */
  function ToLowerAscii(s: string): (r: string)
    ensures |r| == |s|
    ensures forall k :: 0 <= k < |s| ==> (r[k] == s[k] || ('A' <= s[k] <= 'Z' && r[k] == s[k] - 'A' + 'a'))
    ensures forall k :: 0 <= k < |r| ==> !('A' <= r[k] <= 'Z')
  {
    if s == [] then []
    else [if 'A' <= s[0] <= 'Z' then s[0] - 'A' + 'a' else s[0]] + ToLowerAscii(s[1..])
  }

  /** `p` occurs in `s` at position `k`. */
  ghost predicate OccursAt(s: string, p: string, k: int) {
    0 <= k <= |s| && p <= s[k..]
  }

  /** `haystack.includes(needle)`, scanning left to right. */
  predicate Contains(haystack: string, needle: string) {
    needle <= haystack || (|haystack| > 0 && Contains(haystack[1..], needle))
  }

  /** `Contains` is exactly substring containment. */
  lemma {:induction false} ContainsIff(haystack: string, needle: string)
    ensures Contains(haystack, needle) <==> exists k :: OccursAt(haystack, needle, k)
  {
    if Contains(haystack, needle) {
      if needle <= haystack {
        assert OccursAt(haystack, needle, 0);
      } else {
        ContainsIff(haystack[1..], needle);
        var k :| OccursAt(haystack[1..], needle, k);
        assert haystack[1..][k..] == haystack[k + 1..];
        assert OccursAt(haystack, needle, k + 1);
      }
    }
    if exists k :: OccursAt(haystack, needle, k) {
      var k :| OccursAt(haystack, needle, k);
      if k > 0 {
        assert haystack[1..][k - 1..] == haystack[k..];
        assert OccursAt(haystack[1..], needle, k - 1);
        ContainsIff(haystack[1..], needle);
      }
    }
  }

  /** `s.replace(c, "")` for a one-character pattern: removes the first occurrence only. */
  function RemoveFirst(s: string, c: char): (r: string)
    ensures c !in s ==> r == s
    ensures c in s ==> |r| == |s| - 1 && multiset(r) + multiset{c} == multiset(s)
    ensures c in s ==> exists k :: 0 <= k < |s| && s[k] == c && c !in s[..k] && r == s[..k] + s[k + 1..]
  {
    if s == [] then []
    else
      assert s == [s[0]] + s[1..];
      if s[0] == c then
        assert s[..0] + s[1..] == s[1..];
        s[1..]
      else
        var rest := RemoveFirst(s[1..], c);
        if c in s[1..] then
          FirstOccurrenceShifts(s, c, rest);
          [s[0]] + rest
        else [s[0]] + rest
  }

  /** Dropping element `k` of `tail` and then putting `x` in front drops element `k + 1` of `[x] + tail`. */
  lemma ConsDrop<T>(x: T, tail: seq<T>, k: nat)
    requires k < |tail|
    ensures [x] + (tail[..k] + tail[k + 1..]) == ([x] + tail)[..k + 1] + ([x] + tail)[k + 2..]
  {
    assert ([x] + tail)[..k + 1] == [x] + tail[..k];
    assert ([x] + tail)[k + 2..] == tail[k + 1..];
  }

  /** An occurrence of `c` that is first in `s[1..]` is first in `s` too, one position later. */
  lemma FirstOccurrenceShifts(s: string, c: char, rest: string)
    requires s != [] && s[0] != c
    requires exists k :: 0 <= k < |s[1..]| && s[1..][k] == c && c !in s[1..][..k] && rest == s[1..][..k] + s[1..][k + 1..]
    ensures exists k :: 0 <= k < |s| && s[k] == c && c !in s[..k] && [s[0]] + rest == s[..k] + s[k + 1..]
  {
    var tail := s[1..];
    var k :| 0 <= k < |tail| && tail[k] == c && c !in tail[..k] && rest == tail[..k] + tail[k + 1..];
    assert s == [s[0]] + tail;
    ConsDrop(s[0], tail, k);
    assert s[..k + 1] == [s[0]] + tail[..k];
    assert s[k + 1] == c;
  }

  /** `Array.prototype.join(separator)`. */
  function Join(parts: seq<string>, separator: string): (r: string)
    ensures parts == [] ==> r == []
    ensures |parts| == 1 ==> r == parts[0]
    ensures |parts| > 0 ==> parts[0] <= r
  {
    if parts == [] then []
    else if |parts| == 1 then parts[0]
    else parts[0] + separator + Join(parts[1..], separator)
  }

  /**
   * The order of JavaScript's default `sort` on strings: lexicographic by character,
   * a proper prefix coming first.
   */
  predicate LessEq(a: string, b: string) {
    |a| == 0 || (|b| > 0 && (a[0] < b[0] || (a[0] == b[0] && LessEq(a[1..], b[1..]))))
  }

  lemma {:induction false} LessEqReflexive(a: string)
    ensures LessEq(a, a)
  {
    if |a| > 0 {
      LessEqReflexive(a[1..]);
    }
  }

  lemma {:induction false} LessEqTotal(a: string, b: string)
    ensures LessEq(a, b) || LessEq(b, a)
  {
    if |a| > 0 && |b| > 0 && a[0] == b[0] {
      LessEqTotal(a[1..], b[1..]);
    }
  }

  lemma {:induction false} LessEqTransitive(a: string, b: string, c: string)
    requires LessEq(a, b) && LessEq(b, c)
    ensures LessEq(a, c)
  {
    if |a| > 0 && a[0] == b[0] && b[0] == c[0] {
      LessEqTransitive(a[1..], b[1..], c[1..]);
    }
  }

  /** Only the empty string sorts before or equal to the empty string. */
  lemma EmptyIsLeast(a: string)
    ensures LessEq([], a)
    ensures LessEq(a, []) <==> a == []
  {
  }

  ghost predicate SortedStrings(s: seq<string>) {
    forall i, j :: 0 <= i < j < |s| ==> LessEq(s[i], s[j])
  }

  /** One step of a stable insertion sort: `x` goes before the first element above it. */
  function InsertString(x: string, sorted: seq<string>): (r: seq<string>)
    ensures |r| == |sorted| + 1
    ensures multiset(r) == multiset(sorted) + multiset{x}
  {
    if sorted == [] then [x]
    else if LessEq(x, sorted[0]) then [x] + sorted
    else
      assert sorted == [sorted[0]] + sorted[1..];
      [sorted[0]] + InsertString(x, sorted[1..])
  }

  lemma {:induction false} InsertStringSorted(x: string, sorted: seq<string>)
    requires SortedStrings(sorted)
    ensures SortedStrings(InsertString(x, sorted))
  {
    if sorted == [] {
    } else if LessEq(x, sorted[0]) {
      forall j | 0 < j < |sorted| ensures LessEq(x, sorted[j]) {
        LessEqTransitive(x, sorted[0], sorted[j]);
      }
    } else {
      LessEqTotal(x, sorted[0]);
      InsertStringSorted(x, sorted[1..]);
      var rest := InsertString(x, sorted[1..]);
      forall j | 0 <= j < |rest| ensures LessEq(sorted[0], rest[j]) {
        assert rest[j] in multiset(sorted[1..]) + multiset{x};
        if rest[j] != x {
          assert rest[j] in sorted[1..];
          var m :| 0 <= m < |sorted[1..]| && sorted[1..][m] == rest[j];
          assert sorted[m + 1] == rest[j];
        }
      }
    }
  }

  /** `array.sort()` on strings: sorted and a permutation of its input. */
  function SortStrings(s: seq<string>): (r: seq<string>)
    ensures |r| == |s|
    ensures multiset(r) == multiset(s)
    ensures SortedStrings(r)
  {
    if s == [] then []
    else
      var rest := SortStrings(s[1..]);
      InsertStringSorted(s[0], rest);
      assert s == [s[0]] + s[1..];
      InsertString(s[0], rest)
  }

}
