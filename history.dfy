/**
 * The per-return history register of a scan line. Each scan, every history
 * byte is shifted left one bit and a 1 is put in the rightmost position when
 * that return's strength is above the threshold, a 0 otherwise. The register
 * is a UINT8, so bits older than eight scans fall off the left end.
 */
module ScanHistory {

  /** The register width: a UINT8 remembers this many scans. */
  const HistoryDepth: nat := 8

  /** A return contributes a 1 when its strength is above the threshold. */
  predicate Above(level: bv8, threshold: bv8)
  {
    level > threshold
  }

  /** Bit `k` of a history byte: the scan `k` scans before the newest. */
  predicate Bit(h: bv8, k: nat)
    requires k < HistoryDepth
  {
    (h >> k) & 1 == 1
  }

  /** One scan's update of one history byte: shift left, put the new bit at the right. */
  function ShiftIn(h: bv8, hit: bool): (r: bv8)
    ensures Bit(r, 0) == hit
    ensures forall k :: 1 <= k < HistoryDepth ==> Bit(r, k) == Bit(h, k - 1)
  {
    (h << 1) | (if hit then 1 else 0)
  }

  /**
   * C evaluates `history << 1` in `int` and stores it back into a UINT8:
   * the same value as ShiftIn, computed on integers with the truncation explicit.
   */
  lemma ShiftInIsByteArithmetic(h: bv8, hit: bool)
    ensures ShiftIn(h, hit) as int == ((h as int) * 2 + (if hit then 1 else 0)) % 256
  {
  }

  /** A byte is determined by its eight bits. */
  lemma BitsDetermineByte(a: bv8, b: bv8)
    requires forall k :: 0 <= k < HistoryDepth ==> Bit(a, k) == Bit(b, k)
    ensures a == b
  {
    assert Bit(a, 0) == Bit(b, 0) && Bit(a, 1) == Bit(b, 1);
    assert Bit(a, 2) == Bit(b, 2) && Bit(a, 3) == Bit(b, 3);
    assert Bit(a, 4) == Bit(b, 4) && Bit(a, 5) == Bit(b, 5);
    assert Bit(a, 6) == Bit(b, 6) && Bit(a, 7) == Bit(b, 7);
  }

  /** The register after the scans `hits` (oldest first), starting from `h0`. */
  function Replay(h0: bv8, hits: seq<bool>): (r: bv8)
    ensures |hits| > 0 ==> Bit(r, 0) == hits[|hits| - 1]
  {
    if |hits| == 0 then h0 else ShiftIn(Replay(h0, hits[..|hits| - 1]), hits[|hits| - 1])
  }

  /**
   * Bit 0 holds the newest scan and bit k the scan k scans ago; where fewer
   * than k + 1 scans were replayed, the bit is the start value's, shifted up.
   */
  lemma {:induction false} ReplayBit(h0: bv8, hits: seq<bool>, k: nat)
    requires k < HistoryDepth
    ensures Bit(Replay(h0, hits), k) ==
            if k < |hits| then hits[|hits| - 1 - k] else Bit(h0, k - |hits|)
  {
    if |hits| > 0 {
      var prefix := hits[..|hits| - 1];
      if k > 0 {
        ReplayBit(h0, prefix, k - 1);
      }
    }
  }

  /** One more scan extends the replayed sequence by its bit. */
  lemma ReplayStep(h0: bv8, hits: seq<bool>, hit: bool)
    ensures Replay(h0, hits + [hit]) == ShiftIn(Replay(h0, hits), hit)
  {
  }

  /** Replaying two runs of scans is replaying the second from where the first left off. */
  lemma {:induction false} ReplayAppend(h0: bv8, older: seq<bool>, recent: seq<bool>)
    ensures Replay(h0, older + recent) == Replay(Replay(h0, older), recent)
  {
    if |recent| == 0 {
      assert older + recent == older;
    } else {
      var all := older + recent;
      assert all[..|all| - 1] == older + recent[..|recent| - 1];
      assert all[|all| - 1] == recent[|recent| - 1];
      ReplayAppend(h0, older, recent[..|recent| - 1]);
    }
  }

  /** After eight scans nothing of the earlier register remains. */
  lemma ReplayForgets(h0: bv8, h1: bv8, hits: seq<bool>)
    requires |hits| >= HistoryDepth
    ensures Replay(h0, hits) == Replay(h1, hits)
  {
    forall k | 0 <= k < HistoryDepth
      ensures Bit(Replay(h0, hits), k) == Bit(Replay(h1, hits), k)
    {
      ReplayBit(h0, hits, k);
      ReplayBit(h1, hits, k);
    }
    BitsDetermineByte(Replay(h0, hits), Replay(h1, hits));
  }

  /** Only the last eight scans matter: older results are discarded. */
  lemma ReplayKeepsLastEight(h0: bv8, hits: seq<bool>)
    requires |hits| >= HistoryDepth
    ensures Replay(h0, hits) == Replay(0, hits[|hits| - HistoryDepth..])
  {
    var older, recent := hits[..|hits| - HistoryDepth], hits[|hits| - HistoryDepth..];
    assert hits == older + recent;
    ReplayAppend(h0, older, recent);
    ReplayForgets(Replay(h0, older), 0, recent);
  }

  /** A return that was never above the threshold keeps a zero history. */
  lemma {:induction false} ReplayNeverAbove(hits: seq<bool>)
    requires forall i :: 0 <= i < |hits| ==> !hits[i]
    ensures Replay(0, hits) == 0
  {
    if |hits| > 0 {
      ReplayNeverAbove(hits[..|hits| - 1]);
    }
  }

  /** A history byte is zero exactly when none of the last eight scans was a hit. */
  lemma ReplayZeroIffNoRecentHit(hits: seq<bool>)
    ensures Replay(0, hits) == 0 <==>
            forall i :: 0 <= i < |hits| && |hits| - i <= HistoryDepth ==> !hits[i]
  {
    var r := Replay(0, hits);
    if r == 0 {
      forall i | 0 <= i < |hits| && |hits| - i <= HistoryDepth
        ensures !hits[i]
      {
        ReplayBit(0, hits, |hits| - 1 - i);
      }
    } else {
      if forall i :: 0 <= i < |hits| && |hits| - i <= HistoryDepth ==> !hits[i] {
        forall k | 0 <= k < HistoryDepth
          ensures Bit(r, k) == Bit(0, k)
        {
          ReplayBit(0, hits, k);
        }
        BitsDetermineByte(r, 0);
      }
    }
  }

  /** One scan's update of a whole line: every history byte takes its return's bit. */
  function ShiftLine(history: seq<bv8>, data: seq<bv8>, threshold: bv8): (r: seq<bv8>)
    requires |history| == |data|
    ensures |r| == |history|
    ensures forall i :: 0 <= i < |r| ==> Bit(r[i], 0) == Above(data[i], threshold)
    ensures forall i, k :: 0 <= i < |r| && 1 <= k < HistoryDepth ==> Bit(r[i], k) == Bit(history[i], k - 1)
  {
    seq(|history|, i requires 0 <= i < |history| => ShiftIn(history[i], Above(data[i], threshold)))
  }

  /**
   * A line update continues every register's replay: if history byte `i` is
   * the replay of the scans so far, after the update it is the replay of
   * those scans followed by this scan's bit for return `i`.
   */
  lemma ShiftLineContinuesReplay(history: seq<bv8>, data: seq<bv8>, threshold: bv8, i: int, h0: bv8, hits: seq<bool>)
    requires |history| == |data| && 0 <= i < |history|
    requires history[i] == Replay(h0, hits)
    ensures ShiftLine(history, data, threshold)[i] == Replay(h0, hits + [Above(data[i], threshold)])
  {
  }
}
