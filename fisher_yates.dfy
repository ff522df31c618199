/** The in-place Fisher-Yates pass of the queue's `shuffle`, as a function of the random draws. */
module FisherYates {

  /**
   * `Math.floor(x * (i + 1))`, the swap partner chosen for index `i` from a
   * draw `x` of `Math.random()`, which lies in [0, 1).
   */
  function SwapIndex(x: real, i: nat): (j: int)
    requires 0.0 <= x < 1.0
    ensures 0 <= j <= i
  {
    assert 0.0 <= x * (i + 1) as real < (i + 1) as real;
    (x * (i + 1) as real).Floor
  }

  /** `[s[i], s[j]] = [s[j], s[i]]`. */
  function Swap<T>(s: seq<T>, i: int, j: int): (r: seq<T>)
    requires 0 <= i < |s| && 0 <= j < |s|
    ensures |r| == |s|
    ensures r[i] == s[j] && r[j] == s[i]
  {
    s[i := s[j]][j := s[i]]
  }

  /** A swap keeps the elements and how often each occurs. */
  lemma SwapPermutes<T>(s: seq<T>, i: int, j: int)
    requires 0 <= i < |s| && 0 <= j < |s|
    ensures multiset(Swap(s, i, j)) == multiset(s)
  {
  }

  /**
   * The state after the swaps for indices `i`, `i - 1`, ..., 1 of the
   * count-down loop, where the draw taken at index `k` is `random(k)`.
   */
  function Shuffled<T>(s: seq<T>, random: nat -> real, i: int): (r: seq<T>)
    requires forall k: nat :: 0.0 <= random(k) < 1.0
    requires i < |s|
    ensures |r| == |s|
    decreases i
  {
    if i <= 0 then s
    else Shuffled(Swap(s, i, SwapIndex(random(i), i)), random, i - 1)
  }

  /** The shuffle only reorders: the result holds the same elements, each as often. */
  lemma {:induction false} ShuffledIsPermutation<T>(s: seq<T>, random: nat -> real, i: int)
    requires forall k: nat :: 0.0 <= random(k) < 1.0
    requires i < |s|
    ensures multiset(Shuffled(s, random, i)) == multiset(s)
    decreases i
  {
    if i > 0 {
      var swapped := Swap(s, i, SwapIndex(random(i), i));
      ShuffledIsPermutation(swapped, random, i - 1);
      SwapPermutes(s, i, SwapIndex(random(i), i));
    }
  }
}
