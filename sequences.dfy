/** Joining sequences of blocks, the shape every slicer's result has: the
    blocks joined in order (appending each block in turn) or last first
    (inserting each block at the front in turn). */
module Sequences {

  /** The blocks joined in order. */
  function Flatten<T>(bs: seq<seq<T>>): seq<T>
    decreases |bs|
  {
    if |bs| == 0 then [] else Flatten(bs[..|bs| - 1]) + bs[|bs| - 1]
  }

  /** The blocks joined last first. */
  function FlattenReversed<T>(bs: seq<seq<T>>): seq<T>
    decreases |bs|
  {
    if |bs| == 0 then [] else bs[|bs| - 1] + FlattenReversed(bs[..|bs| - 1])
  }

  lemma Regroup<T>(a: seq<T>, b: seq<T>, c: seq<T>)
    ensures a + b + c == a + (b + c)
  {
  }

  lemma FlattenAppend<T>(bs: seq<seq<T>>, b: seq<T>)
    ensures Flatten(bs + [b]) == Flatten(bs) + b
    ensures FlattenReversed(bs + [b]) == b + FlattenReversed(bs)
  {
    assert (bs + [b])[..|bs|] == bs;
  }

  /** Taking one more block of `bs`. */
  lemma FlattenPrefix<T>(bs: seq<seq<T>>, n: int)
    requires 0 <= n < |bs|
    ensures Flatten(bs[..n + 1]) == Flatten(bs[..n]) + bs[n]
    ensures FlattenReversed(bs[..n + 1]) == bs[n] + FlattenReversed(bs[..n])
  {
    assert bs[..n + 1] == bs[..n] + [bs[n]];
    FlattenAppend(bs[..n], bs[n]);
  }

  /** One more block appended behind `acc` and the first `n` blocks. */
  lemma AppendStep<T>(acc: seq<T>, bs: seq<seq<T>>, n: int, b: seq<T>)
    requires 0 <= n < |bs| && b == bs[n]
    ensures acc + Flatten(bs[..n]) + b == acc + Flatten(bs[..n + 1])
  {
    FlattenPrefix(bs, n);
    Regroup(acc, Flatten(bs[..n]), b);
  }

  /** One more block inserted in front of the first `n` blocks, joined last
      first, and `acc`. */
  lemma InsertStep<T>(acc: seq<T>, bs: seq<seq<T>>, n: int, b: seq<T>)
    requires 0 <= n < |bs| && b == bs[n]
    ensures b + (FlattenReversed(bs[..n]) + acc) == FlattenReversed(bs[..n + 1]) + acc
  {
    FlattenPrefix(bs, n);
    Regroup(b, FlattenReversed(bs[..n]), acc);
  }

  /** Blocks that join into `s[a..b]`, followed by the block `s[b..d]`,
      join into `s[a..d]`. */
  lemma JoinRange<T>(bs: seq<seq<T>>, n: int, s: seq<T>, a: int, b: int, d: int)
    requires 0 < n <= |bs| && 0 <= a <= b <= d <= |s|
    requires Flatten(bs[..n - 1]) == s[a..b] && bs[n - 1] == s[b..d]
    ensures Flatten(bs[..n]) == s[a..d]
  {
    FlattenPrefix(bs, n - 1);
    assert s[a..b] + s[b..d] == s[a..d];
  }

  lemma {:induction false} FlattenConcat<T>(front: seq<seq<T>>, back: seq<seq<T>>)
    ensures Flatten(front + back) == Flatten(front) + Flatten(back)
    ensures FlattenReversed(front + back) == FlattenReversed(back) + FlattenReversed(front)
    decreases |back|
  {
    if |back| == 0 {
      assert front + back == front;
    } else {
      var init, last := back[..|back| - 1], back[|back| - 1];
      assert back == init + [last];
      assert front + back == (front + init) + [last];
      FlattenConcat(front, init);
      FlattenAppend(front + init, last);
      FlattenAppend(init, last);
      Regroup(Flatten(front), Flatten(init), last);
      Regroup(last, FlattenReversed(init), FlattenReversed(front));
    }
  }

  /** Taking one more group of blocks of a nested sequence. */
  lemma NestedPrefix<T>(bss: seq<seq<seq<T>>>, n: int)
    requires 0 <= n < |bss|
    ensures Flatten(Flatten(bss[..n + 1])) == Flatten(Flatten(bss[..n])) + Flatten(bss[n])
    ensures FlattenReversed(Flatten(bss[..n + 1])) == FlattenReversed(bss[n]) + FlattenReversed(Flatten(bss[..n]))
  {
    FlattenPrefix(bss, n);
    FlattenConcat(Flatten(bss[..n]), bss[n]);
  }

  /** Joining the blocks last first keeps every element, each as often. */
  lemma {:induction false} FlattenReversedPermutes<T>(bs: seq<seq<T>>)
    ensures multiset(FlattenReversed(bs)) == multiset(Flatten(bs))
    decreases |bs|
  {
    if |bs| > 0 {
      FlattenReversedPermutes(bs[..|bs| - 1]);
    }
  }

  /** An element of the joined blocks is an element of one of them. */
  lemma {:induction false} FlattenMembers<T>(bs: seq<seq<T>>, x: T)
    ensures x in Flatten(bs) <==> exists t :: 0 <= t < |bs| && x in bs[t]
    decreases |bs|
  {
    if |bs| > 0 {
      var init := bs[..|bs| - 1];
      FlattenMembers(init, x);
      if x in Flatten(bs) && x !in bs[|bs| - 1] {
        var t :| 0 <= t < |init| && x in init[t];
        assert x in bs[t];
      }
      if exists t :: 0 <= t < |bs| && x in bs[t] {
        var t :| 0 <= t < |bs| && x in bs[t];
        if t < |init| {
          assert x in init[t];
        }
      }
    }
  }

  /** An element of a nested sequence joined twice is an element of one of
      its innermost blocks. */
  lemma NestedMembers<T>(bss: seq<seq<seq<T>>>, x: T)
    ensures x in Flatten(Flatten(bss)) <==>
              exists s, t :: 0 <= s < |bss| && 0 <= t < |bss[s]| && x in bss[s][t]
  {
    var blocks := Flatten(bss);
    FlattenMembers(blocks, x);
    if x in Flatten(blocks) {
      var u :| 0 <= u < |blocks| && x in blocks[u];
      FlattenMembers(bss, blocks[u]);
      var s :| 0 <= s < |bss| && blocks[u] in bss[s];
      var t :| 0 <= t < |bss[s]| && bss[s][t] == blocks[u];
      assert x in bss[s][t];
    }
    if exists s, t :: 0 <= s < |bss| && 0 <= t < |bss[s]| && x in bss[s][t] {
      var s, t :| 0 <= s < |bss| && 0 <= t < |bss[s]| && x in bss[s][t];
      FlattenMembers(bss, bss[s][t]);
      assert bss[s][t] in bss[s];
      var u :| 0 <= u < |blocks| && blocks[u] == bss[s][t];
      assert x in blocks[u];
    }
  }

  /** A sequence with no elements is empty. */
  lemma NoMembers<T>(s: seq<T>)
    requires forall x :: x !in s
    ensures s == []
  {
    if |s| > 0 {
      FirstIsMember(s);
      assert false;
    }
  }

  lemma FirstIsMember<T>(s: seq<T>)
    requires |s| > 0
    ensures s[0] in s
  {
  }
}
