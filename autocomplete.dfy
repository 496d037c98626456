/** The suggestion list of showAutocomplete. */
module Autocomplete {
  import opened Text

  /** Queries shorter than this show no suggestions. */
  const MIN_QUERY_LENGTH := 2
  /** At most this many suggestions are shown. */
  const MAX_SUGGESTIONS := 8

  /**
   * String.prototype.length: the number of UTF-16 code units, two for a
   * character outside the Basic Multilingual Plane.
   */
  function Utf16Length(s: string): (n: nat)
    ensures |s| <= n <= 2 * |s|
    ensures (forall k :: 0 <= k < |s| ==> s[k] as int <= 0xFFFF) ==> n == |s|
    ensures n < 2 <==> s == [] || (|s| == 1 && s[0] as int <= 0xFFFF)
  {
    if s == [] then 0 else Utf16Length(s[1..]) + (if s[0] as int <= 0xFFFF then 1 else 2)
  }

  /**
   * The filter's test: the name, lower-cased, includes the query, lower-cased.
   * A name matches every case variant of itself, and a matching query is no
   * longer than the name.
   */
  function Matches(name: string, query: string): (b: bool)
    ensures Lower(query) == Lower(name) ==> b
    ensures b ==> |query| <= |name|
  {
    Contains(Lower(name), Lower(query))
  }

  /** `a` is `b` with some elements left out, the rest kept in order. */
  predicate IsSubsequence(a: seq<string>, b: seq<string>) {
    if a == [] then true
    else if b == [] then false
    else if a[0] == b[0] then IsSubsequence(a[1..], b[1..])
    else IsSubsequence(a, b[1..])
  }

  /** Array.prototype.filter with the case-insensitive `includes` test. */
  function FilterMatches(names: seq<string>, query: string): (r: seq<string>)
    ensures forall n :: n in r <==> n in names && Matches(n, query)
    ensures IsSubsequence(r, names)
    ensures forall n :: multiset(r)[n] == if Matches(n, query) then multiset(names)[n] else 0
  {
    if names == [] then []
    else
      assert names == [names[0]] + names[1..];
      if Matches(names[0], query) then [names[0]] + FilterMatches(names[1..], query)
      else FilterMatches(names[1..], query)
  }

  lemma {:induction false} PrefixIsSubsequence(a: seq<string>, b: seq<string>, k: nat)
    requires IsSubsequence(a, b) && k <= |a|
    ensures IsSubsequence(a[..k], b)
  {
    if k > 0 && b != [] {
      if a[0] == b[0] {
        assert a[..k][1..] == a[1..][..k - 1];
        PrefixIsSubsequence(a[1..], b[1..], k - 1);
      } else {
        PrefixIsSubsequence(a, b[1..], k);
      }
    }
  }

  /** The number of matches `slice(0, 8)` keeps out of `count`. */
  function SliceLength(count: nat): nat {
    if count < MAX_SUGGESTIONS then count else MAX_SUGGESTIONS
  }

  /**
   * The suggestions for `query`: none when it is shorter than two UTF-16 code
   * units; otherwise the first eight names, in name-list order and with
   * repeats, that contain the query case-insensitively, and all of them when
   * there are fewer than eight.
   */
  function Suggestions(names: seq<string>, query: string): (r: seq<string>)
    ensures Utf16Length(query) < MIN_QUERY_LENGTH ==> r == []
    ensures |r| <= MAX_SUGGESTIONS
    ensures forall n :: n in r ==> n in names && Matches(n, query)
    ensures IsSubsequence(r, names)
    ensures Utf16Length(query) >= MIN_QUERY_LENGTH ==>
              r == FilterMatches(names, query)[..SliceLength(|FilterMatches(names, query)|)]
    ensures Utf16Length(query) >= MIN_QUERY_LENGTH && |r| < MAX_SUGGESTIONS ==>
              forall n :: n in names && Matches(n, query) ==> n in r
  {
    if Utf16Length(query) < MIN_QUERY_LENGTH then []
    else
      var all := FilterMatches(names, query);
      var k := SliceLength(|all|);
      PrefixIsSubsequence(all, names, k);
      assert forall n :: n in all[..k] ==> n in all;
      assert k < MAX_SUGGESTIONS ==> all[..k] == all;
      all[..k]
  }
}
