/** Facts about cutting and joining sequences, used by the layout proofs. */
module SeqFacts {
  /** `block` sits in `c` between `start` and `end`. */
  predicate BlockAt<T(==)>(c: seq<T>, start: int, end: int, block: seq<T>) {
    0 <= start <= end <= |c| && c[start..end] == block
  }

  /** The `j`-th element of a block is the element of `c` at `start + j`. */
  lemma BlockElement<T>(c: seq<T>, start: int, end: int, block: seq<T>, j: int)
    requires BlockAt(c, start, end, block) && 0 <= j < |block|
    ensures start + j < |c| && c[start + j] == block[j]
  {
    assert c[start..end][j] == c[start + j];
  }

  /**
   * In `c == h + all + t`, where `all` starts with `upto == before + block`,
   * `block` sits right after `h + before`.
   */
  lemma BlockInMiddle<T>(c: seq<T>, h: seq<T>, all: seq<T>, t: seq<T>,
                         before: seq<T>, block: seq<T>, upto: seq<T>, start: int, end: int)
    requires c == h + all + t
    requires upto == before + block && |upto| <= |all| && all[..|upto|] == upto
    requires start == |h| + |before| && end == |h| + |upto|
    ensures BlockAt(c, start, end, block)
  {
    MiddleOfPrefix(all, before, block);
    WindowOfMiddle(h, all, t, |before|, |upto|);
  }

  lemma AppendAssoc<T>(a: seq<T>, b: seq<T>, c: seq<T>)
    ensures (a + b) + c == a + (b + c)
  {
  }

  /** A prefix of `a` stays a prefix when something is appended to `a`. */
  lemma PrefixOfAppend<T>(a: seq<T>, b: seq<T>, c: seq<T>)
    requires |c| <= |a| && a[..|c|] == c
    ensures |c| <= |a + b| && (a + b)[..|c|] == c
  {
    assert (a + b)[..|c|] == a[..|c|];
  }

  /** `mid` follows `pre` at the start of `s`. */
  lemma MiddleOfPrefix<T>(s: seq<T>, pre: seq<T>, mid: seq<T>)
    requires |pre| + |mid| <= |s| && s[..|pre| + |mid|] == pre + mid
    ensures s[|pre|..|pre| + |mid|] == mid
  {
    forall k | 0 <= k < |mid| ensures s[|pre|..|pre| + |mid|][k] == mid[k] {
      assert s[|pre| + k] == (pre + mid)[|pre| + k];
    }
  }

  /**
   * Cutting `all[lo..hi]` out of `h + all + t`, where `all` starts with
   * `before` of length `lo`.
   */
  lemma CutOut<T>(h: seq<T>, all: seq<T>, t: seq<T>, before: seq<T>, hi: int)
    requires |before| <= hi <= |all| && all[..|before|] == before
    ensures (h + all + t)[..|h| + |before|] + (h + all + t)[|h| + hi..] == h + (before + all[hi..]) + t
  {
    var s := h + all + t;
    assert s[..|h| + |before|] == h + before by {
      assert forall k :: 0 <= k < |h| + |before| ==> s[..|h| + |before|][k] == (h + before)[k];
    }
    assert s[|h| + hi..] == all[hi..] + t by {
      assert forall k :: 0 <= k < |s| - |h| - hi ==> s[|h| + hi..][k] == (all[hi..] + t)[k];
    }
  }

  /** A window of the middle part of a concatenation. */
  lemma WindowOfMiddle<T>(h: seq<T>, a: seq<T>, t: seq<T>, lo: int, hi: int)
    requires 0 <= lo <= hi <= |a|
    ensures (h + a + t)[|h| + lo..|h| + hi] == a[lo..hi]
  {
    var c := h + a + t;
    assert forall k :: 0 <= k < hi - lo ==> c[|h| + lo..|h| + hi][k] == a[lo..hi][k];
  }

  /** Dropping a prefix commutes with appending. */
  lemma DropThenAppend<T>(h: seq<T>, a: seq<T>, b: seq<T>, cut: int)
    requires 0 <= cut <= |a|
    ensures (h + a[cut..]) + b == h + (a + b)[cut..]
  {
    assert (a + b)[cut..] == a[cut..] + b;
  }

  /** `CutOut`, stated for a sequence `c` known to be `h + all + t` and a cut `[start, end)`. */
  lemma CutOutAt<T>(c: seq<T>, h: seq<T>, all: seq<T>, t: seq<T>, before: seq<T>, hi: int,
                    start: int, end: int, result: seq<T>)
    requires c == h + all + t && |before| <= hi <= |all| && all[..|before|] == before
    requires start == |h| + |before| && end == |h| + hi
    requires result == h + (before + all[hi..]) + t
    ensures start <= end <= |c| && result == c[..start] + c[end..]
  {
    CutOut(h, all, t, before, hi);
  }

  /** Dropping everything leaves nothing to append. */
  lemma DropAll<T>(a: seq<T>, b: seq<T>)
    ensures a + b[|b|..] == a
  {
    assert b[|b|..] == [];
  }

  lemma TakeAll<T>(s: seq<T>)
    ensures s[..|s|] == s
  {
  }

  // ---------------------------------------------------------------------------
  // A sequence of blocks laid end to end

  /** The blocks of `blocks`, one after the other. */
  function Flatten<T>(blocks: seq<seq<T>>): seq<T> {
    if blocks == [] then [] else Flatten(blocks[..|blocks| - 1]) + blocks[|blocks| - 1]
  }

  /** Laying out one more block appends it. */
  lemma FlattenSnoc<T>(blocks: seq<seq<T>>, n: int)
    requires 0 <= n < |blocks|
    ensures Flatten(blocks[..n + 1]) == Flatten(blocks[..n]) + blocks[n]
  {
    var b := blocks[..n + 1];
    assert b[..|b| - 1] == blocks[..n];
  }

  /** The layout of the first `m` blocks is a prefix of the layout of the first `n`. */
  lemma {:induction false} FlattenPrefix<T>(blocks: seq<seq<T>>, m: int, n: int)
    requires 0 <= m <= n <= |blocks|
    ensures |Flatten(blocks[..m])| <= |Flatten(blocks[..n])|
    ensures Flatten(blocks[..n])[..|Flatten(blocks[..m])|] == Flatten(blocks[..m])
    decreases n
  {
    if m < n {
      FlattenPrefix(blocks, m, n - 1);
      FlattenSnoc(blocks, n - 1);
      PrefixOfAppend(Flatten(blocks[..n - 1]), blocks[n - 1], Flatten(blocks[..m]));
    } else {
      TakeAll(Flatten(blocks[..n]));
    }
  }

  /** Element `k` of the layout of the first `n` blocks comes from block `i`. */
  predicate IssuedBy<T(==)>(blocks: seq<seq<T>>, n: int, k: int, i: int)
    requires 0 <= n <= |blocks|
  {
    && 0 <= i < n
    && |Flatten(blocks[..i])| <= k < |Flatten(blocks[..i])| + |blocks[i]|
    && k < |Flatten(blocks[..n])|
    && Flatten(blocks[..n])[k] == blocks[i][k - |Flatten(blocks[..i])|]
  }

  /** Every element of the layout comes from some block. */
  lemma {:induction false} FlattenIssuer<T>(blocks: seq<seq<T>>, n: int, k: int)
    requires 0 <= n <= |blocks| && 0 <= k < |Flatten(blocks[..n])|
    ensures exists i :: IssuedBy(blocks, n, k, i)
    decreases n
  {
    if n == 0 {
      assert false;
    }
    FlattenSnoc(blocks, n - 1);
    var prev := Flatten(blocks[..n - 1]);
    if k < |prev| {
      FlattenIssuer(blocks, n - 1, k);
      var i :| IssuedBy(blocks, n - 1, k, i);
      assert IssuedBy(blocks, n, k, i);
    } else {
      assert IssuedBy(blocks, n, k, n - 1);
    }
  }

  /** `b` is `a` with block `i` emptied. */
  predicate Emptied<T(==)>(a: seq<seq<T>>, b: seq<seq<T>>, i: int) {
    && |b| == |a| && 0 <= i < |a| && b[i] == []
    && forall j :: 0 <= j < |a| && j != i ==> b[j] == a[j]
  }

  /** Blocks before the emptied one are laid out alike. */
  lemma {:induction false} FlattenBefore<T>(a: seq<seq<T>>, b: seq<seq<T>>, i: int, n: int)
    requires Emptied(a, b, i) && 0 <= n <= i
    ensures Flatten(b[..n]) == Flatten(a[..n])
    decreases n
  {
    if n == 0 {
      assert a[..0] == [] && b[..0] == [];
    } else {
      FlattenBefore(a, b, i, n - 1);
      FlattenSnoc(a, n - 1);
      FlattenSnoc(b, n - 1);
    }
  }

  /** Emptying block `i` cuts exactly that block out of the layout. */
  lemma {:induction false} FlattenEmptied<T>(a: seq<seq<T>>, b: seq<seq<T>>, i: int, n: int)
    requires Emptied(a, b, i) && i < n <= |a|
    ensures |Flatten(a[..i + 1])| <= |Flatten(a[..n])|
    ensures Flatten(b[..n]) == Flatten(a[..i]) + Flatten(a[..n])[|Flatten(a[..i + 1])|..]
    decreases n
  {
    FlattenPrefix(a, i + 1, n);
    if n == i + 1 {
      FlattenBefore(a, b, i, i);
      FlattenSnoc(b, i);
      DropAll(Flatten(a[..i]), Flatten(a[..n]));
    } else {
      FlattenEmptied(a, b, i, n - 1);
      assert b[n - 1] == a[n - 1];
      FlattenAfterCut(a, b, n, Flatten(a[..i]), |Flatten(a[..i + 1])|);
    }
  }

  lemma FlattenAfterCut<T>(a: seq<seq<T>>, b: seq<seq<T>>, n: int, pre: seq<T>, cut: int)
    requires 0 < n <= |a| && n <= |b| && b[n - 1] == a[n - 1]
    requires 0 <= cut <= |Flatten(a[..n - 1])|
    requires Flatten(b[..n - 1]) == pre + Flatten(a[..n - 1])[cut..]
    ensures cut <= |Flatten(a[..n])|
    ensures Flatten(b[..n]) == pre + Flatten(a[..n])[cut..]
  {
    FlattenSnoc(a, n - 1);
    FlattenSnoc(b, n - 1);
    DropThenAppend(pre, Flatten(a[..n - 1]), a[n - 1], cut);
  }
}
