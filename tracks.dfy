/** The part of a Kazagumo track that the queue looks at, and the queue's duration sum. */
module Tracks {
  import opened Wrappers

  /**
   * A track as the queue sees it. The queue never looks inside a track except
   * for its `length` (in milliseconds, possibly absent), so the rest of the
   * record is reduced to `id`, which stands for the object's identity: two
   * tracks are the same element exactly when they are the same object.
   */
  datatype Track = Track(id: nat, length: Option<nat>)

  /** What one track adds to the queue's duration: `cur.length || 0`. */
  function Duration(t: Track): nat {
    match t.length
    case None => 0
    case Some(n) => n
  }

  /** Reference definition: the sum of the durations of the tracks of `s`. */
  function TotalDuration(s: seq<Track>): nat {
    if s == [] then 0 else Duration(s[0]) + TotalDuration(s[1..])
  }

  /**
   * The reducer of the `durationLength` getter: a left fold over `s` that
   * starts from the accumulator `acc` and adds each track's duration.
   */
  function SumLengths(s: seq<Track>, acc: nat): (r: nat)
    ensures r == acc + TotalDuration(s)
  {
    if s == [] then acc else SumLengths(s[1..], acc + Duration(s[0]))
  }

  lemma {:induction false} TotalDurationAppend(a: seq<Track>, b: seq<Track>)
    ensures TotalDuration(a + b) == TotalDuration(a) + TotalDuration(b)
  {
    if a == [] {
      assert a + b == b;
    } else {
      assert (a + b)[1..] == a[1..] + b;
      TotalDurationAppend(a[1..], b);
    }
  }

  /** Inserting a track anywhere adds exactly its duration. */
  lemma {:induction false} TotalDurationInsert(s: seq<Track>, p: int, t: Track)
    requires 0 <= p <= |s|
    ensures TotalDuration(s[..p] + [t] + s[p..]) == TotalDuration(s) + Duration(t)
  {
    TotalDurationAppend(s[..p] + [t], s[p..]);
    TotalDurationAppend(s[..p], [t]);
    TotalDurationAppend(s[..p], s[p..]);
    assert s[..p] + s[p..] == s;
    assert TotalDuration([t]) == Duration(t) by {
      assert [t][1..] == [];
    }
  }

  /** Removing the track at `p` takes away exactly its duration. */
  lemma {:induction false} TotalDurationRemove(s: seq<Track>, p: int)
    requires 0 <= p < |s|
    ensures TotalDuration(s[..p] + s[p + 1..]) + Duration(s[p]) == TotalDuration(s)
  {
    TotalDurationAppend(s[..p], s[p + 1..]);
    TotalDurationAppend(s[..p], s[p..]);
    assert s[..p] + s[p..] == s;
    assert s[p..][1..] == s[p + 1..];
  }

  /** No single track lasts longer than the whole sequence it is in. */
  lemma {:induction false} ElementWithinTotal(s: seq<Track>, i: int)
    requires 0 <= i < |s|
    ensures Duration(s[i]) <= TotalDuration(s)
  {
    TotalDurationRemove(s, i);
  }

  /** The duration sum depends only on which tracks there are, not on their order. */
  lemma {:induction false} TotalDurationPermutation(a: seq<Track>, b: seq<Track>)
    requires multiset(a) == multiset(b)
    ensures TotalDuration(a) == TotalDuration(b)
  {
    if a == [] {
      assert |multiset(b)| == 0;
    } else {
      assert a == [a[0]] + a[1..];
      assert a[0] in multiset(b);
      var i :| 0 <= i < |b| && b[i] == a[0];
      var rest := b[..i] + b[i + 1..];
      assert b == b[..i] + [b[i]] + b[i + 1..];
      assert multiset(b) == multiset(b[..i]) + multiset([b[i]]) + multiset(b[i + 1..]);
      assert multiset(rest) == multiset(b[..i]) + multiset(b[i + 1..]);
      assert multiset(a) == multiset([a[0]]) + multiset(a[1..]);
      assert multiset(rest) == multiset(b) - multiset{a[0]};
      assert multiset(a[1..]) == multiset(a) - multiset{a[0]};
      TotalDurationPermutation(a[1..], rest);
      TotalDurationRemove(b, i);
    }
  }
}
