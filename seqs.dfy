/** Small sequence and string helpers shared by the store and the downloader models. */
module Seqs {

  datatype Option<T> = None | Some(value: T)

  /** JavaScript's `Array.prototype.filter`: the elements that `keep` accepts, in their original order. */
  function Filter<T>(s: seq<T>, keep: T -> bool): (r: seq<T>)
    ensures |r| <= |s|
    ensures forall i :: 0 <= i < |r| ==> r[i] in s && keep(r[i])
    ensures forall i :: 0 <= i < |s| && keep(s[i]) ==> s[i] in r
    ensures multiset(r) <= multiset(s)
    ensures forall i {:trigger multiset(r)[s[i]]} :: 0 <= i < |s| ==> multiset(r)[s[i]] == if keep(s[i]) then multiset(s)[s[i]] else 0
  {
    if s == [] then []
    else
      var rest := Filter(s[1..], keep);
      var r := if keep(s[0]) then [s[0]] + rest else rest;
      FilterStep(s, rest, r, keep);
      r
  }

  /** One step of `Filter`: its contract for the tail's result gives its contract for the whole sequence. */
  lemma FilterStep<T>(s: seq<T>, rest: seq<T>, r: seq<T>, keep: T -> bool)
    requires |s| > 0
    requires r == if keep(s[0]) then [s[0]] + rest else rest
    requires |rest| <= |s[1..]|
    requires forall i :: 0 <= i < |rest| ==> rest[i] in s[1..] && keep(rest[i])
    requires forall i :: 0 <= i < |s[1..]| && keep(s[1..][i]) ==> s[1..][i] in rest
    requires multiset(rest) <= multiset(s[1..])
    requires forall i {:trigger multiset(rest)[s[1..][i]]} :: 0 <= i < |s| - 1 ==>
      multiset(rest)[s[1..][i]] == if keep(s[1..][i]) then multiset(s[1..])[s[1..][i]] else 0
    ensures |r| <= |s|
    ensures forall i :: 0 <= i < |r| ==> r[i] in s && keep(r[i])
    ensures forall i :: 0 <= i < |s| && keep(s[i]) ==> s[i] in r
    ensures multiset(r) <= multiset(s)
    ensures forall i {:trigger multiset(r)[s[i]]} :: 0 <= i < |s| ==>
      multiset(r)[s[i]] == if keep(s[i]) then multiset(s)[s[i]] else 0
  {
    assert s == [s[0]] + s[1..];
    forall i | 0 <= i < |s|
      ensures multiset(r)[s[i]] == if keep(s[i]) then multiset(s)[s[i]] else 0
    {
      var x := s[i];
      if x in s[1..] {
        var j :| 0 <= j < |s[1..]| && s[1..][j] == x;
        assert multiset(rest)[s[1..][j]] == if keep(s[1..][j]) then multiset(s[1..])[s[1..][j]] else 0;
      } else {
        assert multiset(s[1..])[x] == 0;
      }
    }
  }

  /** Filtering a concatenation filters each part: the filter keeps the relative order of what it keeps. */
  lemma {:induction false} FilterAppend<T>(a: seq<T>, b: seq<T>, keep: T -> bool)
    ensures Filter(a + b, keep) == Filter(a, keep) + Filter(b, keep)
  {
    if a == [] {
      assert a + b == b;
    } else {
      assert (a + b)[1..] == a[1..] + b;
      FilterAppend(a[1..], b, keep);
    }
  }

  /** A filter that accepts nothing leaves nothing. */
  lemma {:induction false} FilterKeepsNone<T>(s: seq<T>, keep: T -> bool)
    requires forall i :: 0 <= i < |s| ==> !keep(s[i])
    ensures Filter(s, keep) == []
  {
    if s != [] {
      FilterKeepsNone(s[1..], keep);
    }
  }

  /** Filtering with a predicate and with its negation splits the sequence: the two lengths add up. */
  lemma {:induction false} FilterPartition<T>(s: seq<T>, keep: T -> bool, drop: T -> bool)
    requires forall i :: 0 <= i < |s| ==> drop(s[i]) == !keep(s[i])
    ensures |Filter(s, keep)| + |Filter(s, drop)| == |s|
  {
    if s != [] {
      FilterPartition(s[1..], keep, drop);
    }
  }

  /** JavaScript's `String.prototype.includes`. */
  function Includes(s: string, sub: string): (r: bool)
    ensures r <==> exists i :: OccursAt(s, sub, i)
    decreases |s|
  {
    if |sub| > |s| then false
    else if s[..|sub|] == sub then
      assert OccursAt(s, sub, 0);
      true
    else
      var rest := Includes(s[1..], sub);
      assert forall i :: OccursAt(s[1..], sub, i) <==> OccursAt(s, sub, i + 1);
      assert forall i :: OccursAt(s, sub, i) ==> i == 0 || OccursAt(s[1..], sub, i - 1);
      rest
  }

  /** `sub` stands in `s` starting at index `i`. */
  ghost predicate OccursAt(s: string, sub: string, i: int)
  {
    0 <= i && i + |sub| <= |s| && s[i..i + |sub|] == sub
  }

  /** The decimal digit for 0..9. */
  function Digit(d: nat): (c: char)
    requires d < 10
    ensures '0' <= c <= '9' && c as int - '0' as int == d
  {
    ('0' as int + d) as char
  }

  /** How JavaScript renders a non-negative integer in a template literal: decimal, no leading zeros. */
  function DecimalString(n: nat): (s: string)
    ensures |s| >= 1
    ensures forall k :: 0 <= k < |s| ==> '0' <= s[k] <= '9'
    ensures |s| > 1 ==> s[0] != '0'
  {
    if n < 10 then [Digit(n)] else DecimalString(n / 10) + [Digit(n % 10)]
  }

  /** The value of a string of decimal digits, read most significant digit first. */
  function DecimalValue(s: string): nat
    requires forall k :: 0 <= k < |s| ==> '0' <= s[k] <= '9'
  {
    if s == [] then 0
    else DecimalValue(s[..|s| - 1]) * 10 + (s[|s| - 1] as int - '0' as int)
  }

  /** Reading back a rendered count gives the count. */
  lemma {:induction false} DecimalRoundTrip(n: nat)
    ensures DecimalValue(DecimalString(n)) == n
  {
    if n >= 10 {
      var s := DecimalString(n);
      assert s[..|s| - 1] == DecimalString(n / 10);
      DecimalRoundTrip(n / 10);
    }
  }
}
