/**
 * The flag-merge semantics of a Chaos round, on values: a flags array holds one
 * bit per node (bit j mod 8 of byte j / 8 for the node with index j); a node
 * merges a received array into its own by byte-wise OR, relays when the two
 * arrays differ, and the round is complete when every node's bit is set.
 */
module FlagMerge {
  import opened Bytes
  import opened ChaosTestConfig

  type Flags = seq<u8>

  /** The received flags OR-ed with the local ones, byte by byte. */
  function Merge(r: Flags, l: Flags): (m: Flags)
    requires |r| == |l|
    ensures |m| == |r|
    ensures forall i, k: nat :: 0 <= i < |m| ==> (Bit(m[i], k) <==> Bit(r[i], k) || Bit(l[i], k))
  {
    seq(|r|, i requires 0 <= i < |r| => Or8(r[i], l[i]))
  }

  /** The relay test of the code: some received byte differs from the local byte. */
  predicate Differs(r: Flags, l: Flags)
    requires |r| == |l|
  {
    exists i :: 0 <= i < |r| && r[i] != l[i]
  }

  /** Comparing one more byte. */
  lemma DiffersSnoc(r: Flags, l: Flags, i: nat)
    requires i < |r| == |l|
    ensures Differs(r[..i + 1], l[..i + 1]) <==> Differs(r[..i], l[..i]) || r[i] != l[i]
  {
    var r', l' := r[..i + 1], l[..i + 1];
    if r[i] != l[i] {
      assert r'[i] != l'[i];
    }
    if Differs(r', l') {
      var j :| 0 <= j < i + 1 && r'[j] != l'[j];
      if j < i {
        assert r[..i][j] != l[..i][j];
      }
    }
    if Differs(r[..i], l[..i]) {
      var j :| 0 <= j < i && r[..i][j] != l[..i][j];
      assert r'[j] != l'[j];
    }
  }

  /** The running `&` of the first n bytes, starting from 0xFF. */
  function AndPrefix(f: Flags, n: nat): (a: u8)
    requires n <= |f|
    ensures a == 0xFF <==> forall i :: 0 <= i < n ==> f[i] == 0xFF
  {
    if n == 0 then 0xFF
    else
      var a := And8(AndPrefix(f, n - 1), f[n - 1]);
      AndIsFF(AndPrefix(f, n - 1), f[n - 1]);
      a
  }

  /** Completion: all bytes before the last are 0xFF and the last equals the complete flag. */
  predicate Complete(f: Flags, flag: u8)
  {
    |f| >= 1 && (forall i :: 0 <= i < |f| - 1 ==> f[i] == 0xFF) && f[|f| - 1] == flag
  }

  /** No bit is set for a node index n or above. */
  predicate WellFormed(f: Flags, n: nat)
    requires n >= 1
  {
    |f| == MergeLen(n) && f[|f| - 1] < Pow2(FlagBits(n))
  }

  /** Node j (0 <= j < 8 |f|) has contributed. */
  predicate HasNode(f: Flags, j: nat)
    requires j / 8 < |f|
  {
    Bit(f[j / 8], j % 8)
  }

  /** Merging adds nothing that is not already in one of the two sides, and keeps both. */
  lemma {:induction false} MergeIsUnion(r: Flags, l: Flags, j: nat)
    requires |r| == |l| && j / 8 < |r|
    ensures HasNode(Merge(r, l), j) <==> HasNode(r, j) || HasNode(l, j)
  {
  }

  /** Merging the local flags in a second time changes nothing. */
  lemma {:induction false} MergeIdempotent(r: Flags, l: Flags)
    requires |r| == |l|
    ensures Merge(Merge(r, l), l) == Merge(r, l)
  {
    var m := Merge(r, l);
    forall i | 0 <= i < |m| ensures Merge(m, l)[i] == m[i] {
      OrLaws(r[i], l[i], l[i]);
    }
  }

  /** The merge is symmetric: relaying or receiving first ends in the same flags. */
  lemma {:induction false} MergeCommutes(r: Flags, l: Flags)
    requires |r| == |l|
    ensures Merge(r, l) == Merge(l, r)
  {
    forall i | 0 <= i < |r| ensures Merge(r, l)[i] == Merge(l, r)[i] {
      OrLaws(r[i], l[i], l[i]);
    }
  }

  /** The relay decision holds exactly when the merge adds a bit to the packet or to the local copy. */
  lemma {:induction false} DiffersIffMergeAdds(r: Flags, l: Flags)
    requires |r| == |l|
    ensures Differs(r, l) <==> Merge(r, l) != r || Merge(r, l) != l
  {
    var m := Merge(r, l);
    if Differs(r, l) {
      var i :| 0 <= i < |r| && r[i] != l[i];
      DiffersIffOrAddsBits(r[i], l[i]);
      assert m[i] != r[i] || m[i] != l[i];
    } else {
      forall i | 0 <= i < |r| ensures m[i] == r[i] && m[i] == l[i] {
        OrLaws(r[i], l[i], l[i]);
      }
    }
  }

  /** Flags that mention only the first n nodes stay so under merging. */
  lemma {:induction false} MergeWellFormed(r: Flags, l: Flags, n: nat)
    requires n >= 1 && WellFormed(r, n) && WellFormed(l, n)
    ensures WellFormed(Merge(r, l), n)
  {
    var last := |r| - 1;
    OrBelow(r[last], l[last], FlagBits(n));
  }

  /**
   * For well-formed flags, completion (the code's test against the complete
   * flag) holds exactly when every one of the n nodes has contributed.
   */
  lemma {:induction false} CompleteIffAllNodes(f: Flags, n: nat)
    requires n >= 1 && WellFormed(f, n)
    ensures Complete(f, CompleteFlag(n)) <==> forall j: nat :: j < n ==> HasNode(f, j)
  {
    var m := |f|;
    var k := FlagBits(n);
    CompleteFlagCounts(n);
    FullMaskIffLowBits(f[m - 1], k);
    if Complete(f, CompleteFlag(n)) {
      forall j: nat | j < n ensures HasNode(f, j) {
        if j / 8 < m - 1 {
          LowMaskBit(8, j % 8);
          assert Pow2(8) - 1 == 0xFF;
        } else {
          assert j / 8 == m - 1 && j % 8 < k;
        }
      }
    }
    if forall j: nat :: j < n ==> HasNode(f, j) {
      forall i | 0 <= i < m - 1 ensures f[i] == 0xFF {
        assert Pow2(8) - 1 == 0xFF;
        forall b: nat | b < 8 ensures Bit(f[i], b) {
          assert HasNode(f, 8 * i + b);
        }
        FullMaskIffLowBits(f[i], 8);
      }
      var last := f[m - 1];
      forall b: nat | b < k ensures Bit(last, b) {
        assert HasNode(f, 8 * (m - 1) + b);
      }
    }
  }

  /** Once complete, merging in any well-formed local flags keeps the round complete. */
  lemma {:induction false} CompleteStable(r: Flags, l: Flags, n: nat)
    requires n >= 1 && |r| == |l| && WellFormed(l, n) && Complete(r, CompleteFlag(n))
    ensures Complete(Merge(r, l), CompleteFlag(n))
  {
    var m := Merge(r, l);
    var k := FlagBits(n);
    forall i | 0 <= i < |r| - 1 ensures m[i] == 0xFF {
      assert Pow2(8) == 256;
      OrIntoLowMask(l[i], 8);
      assert m[i] == Or8(r[i], l[i]) == Or(Pow2(8) - 1, l[i]);
    }
    var j := |l| - 1;
    OrIntoLowMask(l[j], k);
    assert m[j] == Or8(r[j], l[j]) == Or(Pow2(k) - 1, l[j]);
  }
}
