/**
 * The few JavaScript array built-ins the drag-and-drop logic relies on,
 * stated over Dafny sequences: `indexOf` and a `splice` that deletes nothing.
 */
module Sequences {

  /** No value occurs twice in `s`. */
  ghost predicate Distinct<T>(s: seq<T>)
  {
    forall i, j :: 0 <= i < j < |s| ==> s[i] != s[j]
  }

  /**
   * `Array.prototype.indexOf` (and `String.prototype.indexOf` for one
   * character): the first position of `x` in `s`, or -1 when it is absent.
   */
  function IndexOf<T(==)>(s: seq<T>, x: T): (r: int)
    ensures -1 <= r < |s|
    ensures r == -1 <==> x !in s
    ensures 0 <= r ==> s[r] == x && x !in s[..r]
  {
    if s == [] then -1
    else if s[0] == x then 0
    else
      var i := IndexOf(s[1..], x);
      if i == -1 then -1
      else
        assert s[..i + 1] == [s[0]] + s[1..][..i];
        i + 1
  }

  /** The first occurrence of `x` is right after a prefix that does not contain it. */
  lemma IndexOfAfterPrefix<T>(p: seq<T>, x: T, t: seq<T>)
    requires x !in p
    ensures IndexOf(p + [x] + t, x) == |p|
  {
    var s := p + [x] + t;
    assert s[|p|] == x;
    assert s[..|p|] == p;
    assert forall k :: |p| < k <= |s| ==> s[..k][|p|] == x;
  }

  /**
   * The index where `splice(start, 0, ...)` inserts into an array of length
   * `len`: a negative start counts from the end (and stops at 0), a start past
   * the end is clamped to the end.
   */
  function SpliceStart(len: nat, start: int): (k: nat)
    ensures k <= len
    ensures 0 <= start ==> k == if start <= len then start else len
    ensures start < 0 ==> k == if len + start < 0 then 0 else len + start
  {
    if start < 0 then (if len + start < 0 then 0 else len + start)
    else if start <= len then start
    else len
  }

  /** `s.splice(start, 0, ...items)`, as the new contents of `s`. */
  function Splice<T>(s: seq<T>, start: int, items: seq<T>): (r: seq<T>)
    ensures |r| == |s| + |items|
    ensures var k := SpliceStart(|s|, start);
      r[..k] == s[..k] && r[k..k + |items|] == items && r[k + |items|..] == s[k..]
  {
    var k := SpliceStart(|s|, start);
    s[..k] + items + s[k..]
  }

  /** Splicing adds the inserted items to the array's contents and nothing else. */
  lemma SpliceMultiset<T>(s: seq<T>, start: int, items: seq<T>)
    ensures multiset(Splice(s, start, items)) == multiset(s) + multiset(items)
  {
    var k := SpliceStart(|s|, start);
    assert Splice(s, start, items) == s[..k] + items + s[k..];
    assert s[..k] + s[k..] == s;
  }

  /** In a sequence without repetitions every element occurs exactly once. */
  lemma {:induction false} DistinctMultiplicity<T>(s: seq<T>, x: T)
    requires Distinct(s)
    ensures multiset(s)[x] == if x in s then 1 else 0
  {
    if s != [] {
      var t := s[1..];
      assert s == [s[0]] + t;
      assert Distinct(t) by {
        forall i, j | 0 <= i < j < |t| ensures t[i] != t[j] {
          assert t[i] == s[i + 1] && t[j] == s[j + 1];
        }
      }
      assert s[0] !in t by {
        assert forall j :: 0 <= j < |t| ==> t[j] == s[j + 1] != s[0];
      }
      DistinctMultiplicity(t, x);
      assert multiset(s) == multiset([s[0]]) + multiset(t);
    }
  }
}
