/**
 * The reorder committed at the end of a drag in an ordered (list) container:
 * the transform handed to the session's `setSortOrder`. It drops every focused
 * name from the previous order and splices the whole focused list back in at
 * the drop index. The splice works on the fresh array that `filter` returns,
 * so the transform is a function of the previous order.
 */
module SortOrder {
  import opened Sequences

  /** `entries.filter((entry) => !focused.includes(entry))`. */
  function Filtered(entries: seq<string>, focused: seq<string>): (r: seq<string>)
    ensures |r| <= |entries|
    ensures forall i :: 0 <= i < |r| ==> r[i] !in focused
  {
    if entries == [] then []
    else if entries[0] in focused then Filtered(entries[1..], focused)
    else [entries[0]] + Filtered(entries[1..], focused)
  }

  /**
   * The transform: filter, then `splice(dropIndex, 0, ...focused)`. The
   * result is as long as the filtered order plus the focused list, and the
   * focused list sits at the clamped drop index, contiguous and in order,
   * between the filtered entries before and after it.
   */
  function Reordered(prev: seq<string>, focused: seq<string>, dropIndex: int): (r: seq<string>)
    ensures var f, k := Filtered(prev, focused), InsertionPoint(prev, focused, dropIndex);
      |r| == |f| + |focused|
      && (0 <= dropIndex ==> k == if dropIndex <= |f| then dropIndex else |f|)
      && r[..k] == f[..k] && r[k..k + |focused|] == focused && r[k + |focused|..] == f[k..]
  {
    Splice(Filtered(prev, focused), dropIndex, focused)
  }

  /** Where the focused block starts: the drop index, clamped as `splice` does. */
  function InsertionPoint(prev: seq<string>, focused: seq<string>, dropIndex: int): nat
  {
    SpliceStart(|Filtered(prev, focused)|, dropIndex)
  }

  /** The filtered order holds exactly the previous entries that are not focused. */
  lemma {:induction false} FilteredMembers(entries: seq<string>, focused: seq<string>, e: string)
    ensures e in Filtered(entries, focused) <==> e in entries && e !in focused
  {
    if entries != [] {
      assert entries == [entries[0]] + entries[1..];
      FilteredMembers(entries[1..], focused, e);
    }
  }

  lemma {:induction false} FilteredAppend(a: seq<string>, b: seq<string>, focused: seq<string>)
    ensures Filtered(a + b, focused) == Filtered(a, focused) + Filtered(b, focused)
  {
    if a != [] {
      assert (a + b)[0] == a[0] && (a + b)[1..] == a[1..] + b;
      FilteredAppend(a[1..], b, focused);
    } else {
      assert a + b == b;
    }
  }

  /** Filtering leaves a sequence with no focused name untouched. */
  lemma {:induction false} FilteredUnfocused(s: seq<string>, focused: seq<string>)
    requires forall i :: 0 <= i < |s| ==> s[i] !in focused
    ensures Filtered(s, focused) == s
  {
    if s != [] {
      FilteredUnfocused(s[1..], focused);
    }
  }

  /** Filtering removes a sequence made only of focused names entirely. */
  lemma {:induction false} FilteredAllFocused(s: seq<string>, focused: seq<string>)
    requires forall i :: 0 <= i < |s| ==> s[i] in focused
    ensures Filtered(s, focused) == []
  {
    if s != [] {
      FilteredAllFocused(s[1..], focused);
    }
  }

  /** Filtering keeps a sequence free of repetitions. */
  lemma {:induction false} FilteredDistinct(s: seq<string>, focused: seq<string>)
    requires Distinct(s)
    ensures Distinct(Filtered(s, focused))
  {
    if s != [] {
      var t := s[1..];
      assert Distinct(t) by {
        forall i, j | 0 <= i < j < |t| ensures t[i] != t[j] {
          assert t[i] == s[i + 1] && t[j] == s[j + 1];
        }
      }
      assert s[0] !in t by {
        assert forall j :: 0 <= j < |t| ==> t[j] == s[j + 1] != s[0];
      }
      FilteredDistinct(t, focused);
      FilteredMembers(t, focused, s[0]);
      var ft := Filtered(t, focused);
      if s[0] !in focused {
        var r := [s[0]] + ft;
        forall i, j | 0 <= i < j < |r| ensures r[i] != r[j] {
          assert r[j] == ft[j - 1];
          if i > 0 {
            assert r[i] == ft[i - 1];
          }
        }
      }
    }
  }

  /**
   * Focused names occur in the result only inside the inserted block, so the
   * dragged entries end up contiguous.
   */
  lemma FocusedOnlyInBlock(prev: seq<string>, focused: seq<string>, dropIndex: int, i: nat)
    requires var r := Reordered(prev, focused, dropIndex);
      i < |r| && !(InsertionPoint(prev, focused, dropIndex) <= i < InsertionPoint(prev, focused, dropIndex) + |focused|)
    ensures Reordered(prev, focused, dropIndex)[i] !in focused
  {
  }

  /** Entries that are not dragged keep their relative order. */
  lemma {:induction false} OthersKeepOrder(prev: seq<string>, focused: seq<string>, dropIndex: int)
    ensures Filtered(Reordered(prev, focused, dropIndex), focused) == Filtered(prev, focused)
  {
    var f, k := Filtered(prev, focused), InsertionPoint(prev, focused, dropIndex);
    assert Reordered(prev, focused, dropIndex) == f[..k] + focused + f[k..];
    FilteredAroundBlock(f[..k], focused, f[k..], focused);
    assert f[..k] + f[k..] == f;
  }

  /** Filtering unfocused parts around a block of focused names leaves just the parts. */
  lemma FilteredAroundBlock(before: seq<string>, block: seq<string>, after: seq<string>, focused: seq<string>)
    requires forall i :: 0 <= i < |before| ==> before[i] !in focused
    requires forall i :: 0 <= i < |after| ==> after[i] !in focused
    requires forall i :: 0 <= i < |block| ==> block[i] in focused
    ensures Filtered(before + block + after, focused) == before + after
  {
    FilteredAppend(before + block, after, focused);
    FilteredAppend(before, block, focused);
    FilteredUnfocused(before, focused);
    FilteredUnfocused(after, focused);
    FilteredAllFocused(block, focused);
    assert before + [] == before;
  }

  /**
   * The reorder neither loses nor copies anything: its entries are those of
   * the filtered order plus the focused list, counted with repetitions.
   */
  lemma ReorderedMultiset(prev: seq<string>, focused: seq<string>, dropIndex: int)
    ensures multiset(Reordered(prev, focused, dropIndex)) == multiset(Filtered(prev, focused)) + multiset(focused)
  {
    SpliceMultiset(Filtered(prev, focused), dropIndex, focused);
  }

  /** One name's count in a repetition-free order splits into its unfocused and focused shares. */
  lemma CountSplits(prev: seq<string>, focused: seq<string>, x: string)
    requires Distinct(prev) && Distinct(focused)
    requires forall i :: 0 <= i < |focused| ==> focused[i] in prev
    ensures multiset(Filtered(prev, focused))[x] + multiset(focused)[x] == multiset(prev)[x]
  {
    FilteredDistinct(prev, focused);
    FilteredMembers(prev, focused, x);
    DistinctMultiplicity(prev, x);
    DistinctMultiplicity(Filtered(prev, focused), x);
    DistinctMultiplicity(focused, x);
  }

  /**
   * When the selection repeats no name, is part of the previous order, and
   * that order repeats no name, the reorder is a permutation: nothing is lost
   * and nothing is duplicated.
   */
  lemma ReorderedIsPermutation(prev: seq<string>, focused: seq<string>, dropIndex: int)
    requires Distinct(prev) && Distinct(focused)
    requires forall i :: 0 <= i < |focused| ==> focused[i] in prev
    ensures multiset(Reordered(prev, focused, dropIndex)) == multiset(prev)
  {
    ReorderedMultiset(prev, focused, dropIndex);
    forall x ensures multiset(Filtered(prev, focused))[x] + multiset(focused)[x] == multiset(prev)[x] {
      CountSplits(prev, focused, x);
    }
  }

  /**
   * With nothing focused the committed transform changes nothing, so a stale
   * drop index with an empty selection leaves the order as it was.
   */
  lemma {:induction false} EmptySelectionKeepsOrder(prev: seq<string>, dropIndex: int)
    ensures Reordered(prev, [], dropIndex) == prev
  {
    FilteredUnfocused(prev, []);
  }

  /** The example of dropping `d` at index 2 of `[a, b, c, d]`. */
  lemma DropLastAtTwo()
    ensures Reordered(["a", "b", "c", "d"], ["d"], 2) == ["a", "b", "d", "c"]
  {
  }
}
