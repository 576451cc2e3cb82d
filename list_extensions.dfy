/** GingerTemplate.Core.Extensions.ListExtensions: the in-place Fisher-Yates
    `Shuffle`. The random index is a nondeterministic choice in range. */
module ListExtensions {

  /** The exchange of two positions in the loop body. */
  function Swap<T>(s: seq<T>, i: int, j: int): (r: seq<T>)
    requires 0 <= i < |s| && 0 <= j < |s|
    ensures |r| == |s| && r[i] == s[j] && r[j] == s[i]
  {
    s[i := s[j]][j := s[i]]
  }

  /** An exchange permutes the list and touches no other position. */
  lemma {:induction false} SwapPermutes<T>(s: seq<T>, i: int, j: int)
    requires 0 <= i < |s| && 0 <= j < |s|
    ensures multiset(Swap(s, i, j)) == multiset(s)
    ensures forall k | 0 <= k < |s| && k != i && k != j :: Swap(s, i, j)[k] == s[k]
  {
  }

  /** The random picks of a run on a list of `count` items: the `i`-th step
      swaps position `count - 1 - i` with a position at or below it. */
  ghost predicate ValidPicks(picks: seq<int>, count: int) {
    && |picks| <= (if count > 1 then count - 1 else 0)
    && forall i :: 0 <= i < |picks| ==> 0 <= picks[i] <= count - 1 - i
  }

  lemma ValidPicksPrefix(picks: seq<int>, count: int, n: int)
    requires ValidPicks(picks, count) && 0 <= n <= |picks|
    ensures ValidPicks(picks[..n], count)
  {
  }

  /** The list after the swaps chosen by `picks`: the `i`-th pick is swapped
      with position `|s| - 1 - i`. A pick out of that range (which valid
      picks never hold) swaps nothing. */
  ghost function ApplyPicks<T>(s: seq<T>, picks: seq<int>): (r: seq<T>)
    ensures |r| == |s|
    decreases |picks|
  {
    if picks == [] then s
    else
      var a := ApplyPicks(s, picks[..|picks| - 1]);
      var top := |s| - |picks|;
      var k := picks[|picks| - 1];
      if 0 <= k <= top then Swap(a, top, k) else a
  }

  /** One more pick, in range, exchanges the next position down. */
  lemma {:induction false} ApplyPicksSnoc<T>(s: seq<T>, picks: seq<int>, k: int)
    requires 0 <= k <= |s| - |picks| - 1
    ensures ApplyPicks(s, picks + [k]) == Swap(ApplyPicks(s, picks), |s| - |picks| - 1, k)
  {
    assert (picks + [k])[..|picks|] == picks;
  }

  /** Whatever the picks, the swaps leave a permutation of the list. */
  lemma {:induction false} ApplyPicksPermutes<T>(s: seq<T>, picks: seq<int>)
    ensures multiset(ApplyPicks(s, picks)) == multiset(s)
    decreases |picks|
  {
    if picks != [] {
      var a := ApplyPicks(s, picks[..|picks| - 1]);
      ApplyPicksPermutes(s, picks[..|picks| - 1]);
      var top := |s| - |picks|;
      var k := picks[|picks| - 1];
      if 0 <= k <= top {
        SwapPermutes(a, top, k);
      }
    }
  }

  /** Swapping never touches a position above the one the step works on:
      once step `m` is done, position `count - 1 - m` keeps its value. */
  lemma {:induction false} ApplyPicksFixesTop<T>(s: seq<T>, picks: seq<int>, m: int)
    requires ValidPicks(picks, |s|)
    requires 0 <= m < |picks|
    ensures ApplyPicks(s, picks)[|s| - 1 - m] == ApplyPicks(s, picks[..m + 1])[|s| - 1 - m]
    decreases |picks|
  {
    var i := |picks| - 1;
    if m < i {
      var front := picks[..i];
      var p := |s| - 1 - m;
      var top := |s| - 1 - i;
      assert picks[i] <= top < p;
      SwapPermutes(ApplyPicks(s, front), top, picks[i]);
      assert ApplyPicks(s, picks)[p] == ApplyPicks(s, front)[p];
      ValidPicksPrefix(picks, |s|, i);
      assert front[..m + 1] == picks[..m + 1];
      ApplyPicksFixesTop(s, front, m);
    } else {
      assert picks[..m + 1] == picks;
    }
  }

  /** `Shuffle`: while more than one position is left, pick `k` below `n`,
      decrement `n` and swap positions `n` and `k`. The picks made are
      returned as a ghost record of the run. */
  method Shuffle<T>(list: array<T>) returns (ghost picks: seq<int>)
    modifies list
    ensures ValidPicks(picks, list.Length)
    ensures |picks| == (if list.Length > 1 then list.Length - 1 else 0)
    ensures list[..] == ApplyPicks(old(list[..]), picks)
    ensures multiset(list[..]) == multiset(old(list[..]))
    ensures list.Length <= 1 ==> list[..] == old(list[..])
  {
    picks := [];
    var n := list.Length;
    while n > 1
      invariant 0 <= n <= list.Length
      invariant list.Length > 0 ==> n >= 1
      invariant |picks| == list.Length - n
      invariant ValidPicks(picks, list.Length)
      invariant list[..] == ApplyPicks(old(list[..]), picks)
    {
      var k :| 0 <= k < n;
      n := n - 1;
      ghost var before := list[..];
      var t := list[n];
      list[n] := list[k];
      list[k] := t;
      assert list[..] == Swap(before, n, k);
      ApplyPicksSnoc(old(list[..]), picks, k);
      picks := picks + [k];
    }
    ApplyPicksPermutes(old(list[..]), picks);
  }
}
