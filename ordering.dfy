/** Orderings and text matching used by the backend queries the source issues:
    `.order(column)` becomes a sort by a comparator, `localeCompare` and the
    database's collation become a lexicographic order on character codes, and
    `ilike '%s%'` / `toLowerCase().includes(s)` become a substring test after
    lower-casing. */
module Ordering {

  /** `le` is total and transitive: any such relation can drive a sort. */
  ghost predicate TotalPreorder<T(!new)>(le: (T, T) -> bool)
  {
    && (forall a, b :: le(a, b) || le(b, a))
    && (forall a, b, c :: le(a, b) && le(b, c) ==> le(a, c))
  }

  predicate SortedBy<T>(s: seq<T>, le: (T, T) -> bool)
  {
    forall i, j :: 0 <= i < j < |s| ==> le(s[i], s[j])
  }

  /** Inserts `x` before the first element it does not follow. */
  function Insert<T(!new)>(x: T, s: seq<T>, le: (T, T) -> bool): (r: seq<T>)
    requires TotalPreorder(le)
    requires SortedBy(s, le)
    ensures SortedBy(r, le)
    ensures multiset(r) == multiset(s) + multiset{x}
    ensures |r| == |s| + 1
  {
    if s == [] then [x]
    else if le(x, s[0]) then
      [x] + s
    else
      var rest := Insert(x, s[1..], le);
      assert s == [s[0]] + s[1..];
      assert forall k :: 0 <= k < |rest| ==> le(s[0], rest[k]) by {
        forall k | 0 <= k < |rest|
          ensures le(s[0], rest[k])
        {
          assert rest[k] in multiset(rest);
          assert rest[k] == x || rest[k] in multiset(s[1..]);
          if rest[k] != x {
            var m :| 0 <= m < |s[1..]| && s[1..][m] == rest[k];
            assert le(s[0], s[m + 1]);
          }
        }
      }
      [s[0]] + rest
  }

  /** Insertion sort: the order a backend `.order(...)` hands rows back in. */
  function SortBy<T(!new)>(s: seq<T>, le: (T, T) -> bool): (r: seq<T>)
    requires TotalPreorder(le)
    ensures SortedBy(r, le)
    ensures multiset(r) == multiset(s)
    ensures |r| == |s|
  {
    if s == [] then []
    else
      assert s == [s[0]] + s[1..];
      Insert(s[0], SortBy(s[1..], le), le)
  }

  /** Lexicographic order on character codes; stands in for `localeCompare`. */
  predicate LexLe(a: string, b: string)
  {
    |a| == 0 || (|b| > 0 && (a[0] < b[0] || (a[0] == b[0] && LexLe(a[1..], b[1..]))))
  }

  lemma {:induction false} LexLeTotal(a: string, b: string)
    ensures LexLe(a, b) || LexLe(b, a)
  {
    if |a| > 0 && |b| > 0 && a[0] == b[0] {
      LexLeTotal(a[1..], b[1..]);
    }
  }

  lemma {:induction false} LexLeTrans(a: string, b: string, c: string)
    requires LexLe(a, b) && LexLe(b, c)
    ensures LexLe(a, c)
  {
    if |a| > 0 && |b| > 0 && |c| > 0 && a[0] == b[0] && b[0] == c[0] {
      LexLeTrans(a[1..], b[1..], c[1..]);
    }
  }

  /** Any order on rows that compares one string column lexicographically is a
      total preorder, so it can drive SortBy. */
  lemma ByStringKeyIsTotalPreorder<T(!new)>(le: (T, T) -> bool, key: T -> string)
    requires forall a, b :: le(a, b) <==> LexLe(key(a), key(b))
    ensures TotalPreorder(le)
  {
    forall a: T, b: T
      ensures LexLe(key(a), key(b)) || LexLe(key(b), key(a))
    {
      LexLeTotal(key(a), key(b));
    }
    forall a: T, b: T, c: T | LexLe(key(a), key(b)) && LexLe(key(b), key(c))
      ensures LexLe(key(a), key(c))
    {
      LexLeTrans(key(a), key(b), key(c));
    }
  }

  function LowerChar(c: char): (r: char)
  {
    if 'A' <= c <= 'Z' then (c as int + 32) as char else c
  }

  /** ASCII lower-casing, character by character. */
  function ToLower(s: string): (r: string)
    ensures |r| == |s|
    ensures forall i :: 0 <= i < |s| ==> r[i] == LowerChar(s[i])
  {
    seq(|s|, i requires 0 <= i < |s| => LowerChar(s[i]))
  }

  /** `sub` occurs in `s` at some position. */
  predicate Contains(s: string, sub: string)
  {
    (|sub| <= |s| && s[..|sub|] == sub) || (|s| > 0 && Contains(s[1..], sub))
  }

  /** Case-insensitive substring test. */
  predicate ContainsIgnoringCase(s: string, sub: string)
  {
    Contains(ToLower(s), ToLower(sub))
  }

  /** Every string contains the empty string, so an empty search keeps everything. */
  lemma EmptySearchMatchesAll(s: string)
    ensures ContainsIgnoringCase(s, "")
  {
    assert ToLower("") == "";
    assert ToLower(s)[..0] == "";
  }

  /** `.limit(n)`: at most the first n rows. */
  function Take<T>(s: seq<T>, n: nat): (r: seq<T>)
    ensures |r| <= n && |r| <= |s|
    ensures r == s[..|r|]
    ensures |s| <= n ==> r == s
    ensures |s| > n ==> |r| == n
  {
    if |s| <= n then s else s[..n]
  }
}
