/**
 * Chunk planning and window arithmetic: `chunkDuration` picks the chunk
 * length from the track length, and the loop of `splitMusic` cuts the track,
 * measured in milliseconds, into windows `[start, end)`. The audio itself
 * (decoding, slicing, mp3 export) is not modelled; a chunk is its window.
 */
module Chunking {

  function Min(a: int, b: int): int { if a <= b then a else b }

  /** Python's `-(-a // b)` for positive `b`: the number of windows of `b` needed for `a`. */
  function CeilDiv(a: nat, b: nat): nat
    requires b > 0
  {
    (a + b - 1) / b
  }

  /** chunkDuration: target chunk length, in seconds, for a track of `total` seconds. */
  function ChunkDuration(total: real): (target: real)
    ensures target <= total
    ensures total > 0.0 ==> target > 0.0
  {
    if total <= 10.0 then total
    else if total <= 60.0 then 10.0
    else if total <= 300.0 then 30.0
    else if total <= 600.0 then 60.0
    else 120.0
  }

  /** A longer track never gets a shorter chunk length. */
  lemma ChunkDurationMonotone(t1: real, t2: real)
    requires t1 <= t2
    ensures ChunkDuration(t1) <= ChunkDuration(t2)
  {
  }

  /**
   * The chunk length in milliseconds used by splitMusic for a track of
   * `totalMs` milliseconds: `int(chunkDuration(totalMs / 1000) * 1000)`.
   */
  function ChunkLengthMs(totalMs: nat): (length: nat)
    ensures length == if totalMs <= 10000 then totalMs
                      else if totalMs <= 60000 then 10000
                      else if totalMs <= 300000 then 30000
                      else if totalMs <= 600000 then 60000
                      else 120000
  {
    var seconds := totalMs as real / 1000.0;
    assert seconds * 1000.0 == totalMs as real;
    (ChunkDuration(seconds) * 1000.0).Floor
  }

  /** How many chunks a track of `totalMs` milliseconds is cut into (0 when it cannot be cut). */
  function ChunkCount(totalMs: nat): nat
  {
    if ChunkLengthMs(totalMs) == 0 then 0 else CeilDiv(totalMs, ChunkLengthMs(totalMs))
  }

  /** A track of at most ten minutes is cut into at most ten chunks. */
  lemma AtMostTenChunks(totalMs: nat)
    requires totalMs <= 600000
    ensures ChunkCount(totalMs) <= 10
  {
    var length := ChunkLengthMs(totalMs);
    if length > 0 {
      assert totalMs <= 10 * length;
      DivUpperBound(totalMs + length - 1, length, 10);
    }
  }

  lemma MulCancelLess(x: int, y: int, b: int)
    requires b > 0 && x * b < y * b
    ensures x < y
  {
  }

  lemma DivUpperBound(a: nat, b: nat, q: nat)
    requires b > 0 && a < (q + 1) * b
    ensures a / b <= q
  {
    assert (a / b) * b <= a;
    MulCancelLess(a / b, q + 1, b);
  }

  lemma DivUnique(a: nat, b: nat, q: nat)
    requires b > 0 && q * b <= a < (q + 1) * b
    ensures a / b == q
  {
    DivUpperBound(a, b, q);
    assert a < (a / b + 1) * b;
    MulCancelLess(q, a / b + 1, b);
  }

  /** One chunk, as the half-open interval `[start, end)` of milliseconds it covers. */
  datatype Window = Window(start: nat, end: nat)

  /** The `k`-th window of splitMusic: `[k*length, min(k*length + length, total))`. */
  function WindowAt(k: nat, length: nat, total: nat): Window
  {
    Window(k * length, Min(k * length + length, total))
  }

  /** The windows a track of `total` milliseconds is cut into, `length` milliseconds each but the last. */
  function Windows(total: nat, length: nat): (ws: seq<Window>)
    requires length > 0
    ensures |ws| == CeilDiv(total, length)
  {
    seq(CeilDiv(total, length), k requires 0 <= k => WindowAt(k, length, total))
  }

  lemma AreWindows(ws: seq<Window>, total: nat, length: nat)
    requires length > 0 && |ws| == CeilDiv(total, length)
    requires forall k :: 0 <= k < |ws| ==> ws[k] == WindowAt(k, length, total)
    ensures ws == Windows(total, length)
  {
  }

  /** The windows `[start, end)` are consecutive, non-empty and cover `[0, total)` exactly. */
  ghost predicate Tiles(ws: seq<Window>, total: nat)
  {
    && (|ws| == 0 <==> total == 0)
    && (|ws| > 0 ==> ws[0].start == 0 && ws[|ws| - 1].end == total)
    && (forall k :: 0 <= k < |ws| ==> ws[k].start < ws[k].end)
    && (forall k :: 0 <= k < |ws| - 1 ==> ws[k].end == ws[k + 1].start)
  }

  /** The number of milliseconds the windows cover, added up. */
  function CoveredLength(ws: seq<Window>): int
  {
    if |ws| == 0 then 0 else CoveredLength(ws[..|ws| - 1]) + ws[|ws| - 1].end - ws[|ws| - 1].start
  }

  /** Tiling windows add up to the whole track. */
  lemma {:induction false} TilesCoverTotal(ws: seq<Window>, total: nat)
    requires Tiles(ws, total)
    ensures CoveredLength(ws) == total
  {
    if |ws| > 1 {
      var init := ws[..|ws| - 1];
      assert Tiles(init, init[|init| - 1].end);
      TilesCoverTotal(init, init[|init| - 1].end);
    }
  }

  lemma MulMonotone(a: nat, b: nat, length: nat)
    requires a <= b
    ensures a * length <= b * length
  {
    assert b * length - a * length == (b - a) * length;
  }

  lemma CeilDivBounds(a: nat, length: nat)
    requires length > 0
    ensures a <= CeilDiv(a, length) * length < a + length
  {
    var b := a + length - 1;
    assert b == (b / length) * length + b % length;
  }

  lemma WindowShape(k: nat, n: nat, length: nat, total: nat)
    requires k < n && (n - 1) * length < total <= n * length
    ensures WindowAt(k, length, total).start < WindowAt(k, length, total).end
    ensures k < n - 1 ==> WindowAt(k, length, total).end == WindowAt(k + 1, length, total).start
    ensures k < n - 1 ==> WindowAt(k, length, total).end - WindowAt(k, length, total).start == length
  {
    MulMonotone(k, n - 1, length);
    if k < n - 1 {
      MulMonotone(k + 1, n - 1, length);
      assert (k + 1) * length == k * length + length;
    }
  }

  /** The windows of a track tile it, and every window but the last is `length` long. */
  lemma WindowsTile(total: nat, length: nat)
    requires length > 0
    ensures Tiles(Windows(total, length), total)
    ensures var ws := Windows(total, length);
      forall k :: 0 <= k < |ws| - 1 ==> ws[k].end - ws[k].start == length
  {
    var ws, n := Windows(total, length), CeilDiv(total, length);
    CeilDivBounds(total, length);
    if total == 0 {
      MulCancelLess(n, 1, length);
    } else {
      assert n > 0;
      assert (n - 1) * length < total by {
        assert (n - 1) * length == n * length - length;
      }
      forall k | 0 <= k < |ws|
        ensures ws[k].start < ws[k].end
      {
        WindowShape(k, n, length, total);
      }
      forall k | 0 <= k < |ws| - 1
        ensures ws[k].end == ws[k + 1].start
        ensures ws[k].end - ws[k].start == length
      {
        WindowShape(k, n, length, total);
      }
    }
  }

  /** A track of 45 seconds is cut into four windows of 10 seconds and one of 5. */
  lemma FortyFiveSecondTrack()
    ensures ChunkLengthMs(45000) == 10000 && ChunkCount(45000) == 5
    ensures Windows(45000, 10000) ==
      [Window(0, 10000), Window(10000, 20000), Window(20000, 30000), Window(30000, 40000), Window(40000, 45000)]
  {
    DivUnique(54999, 10000, 5);
  }

  lemma MulSucc(n: nat, length: nat)
    ensures (n + 1) * length == n * length + length
  {
  }

  /**
   * The window loop of splitMusic: one window per `start` in
   * `range(0, total, length)`, ending at `min(start + length, total)`.
   */
  method SplitWindows(total: nat, length: nat) returns (chunks: seq<Window>)
    requires length > 0
    ensures chunks == Windows(total, length)
    ensures Tiles(chunks, total)
    ensures forall k :: 0 <= k < |chunks| - 1 ==> chunks[k].end - chunks[k].start == length
  {
    chunks := [];
    var start := 0;
    while start < total
      invariant start == |chunks| * length
      invariant |chunks| > 0 ==> (|chunks| - 1) * length < total
      invariant forall k :: 0 <= k < |chunks| ==> chunks[k] == WindowAt(k, length, total)
      decreases total - start
    {
      var end := Min(start + length, total);
      MulSucc(|chunks|, length);
      chunks := chunks + [Window(start, end)];
      start := start + length;
    }
    MulSucc(|chunks|, length);
    if |chunks| > 0 {
      MulSucc(|chunks| - 1, length);
    }
    DivUnique(total + length - 1, length, |chunks|);
    AreWindows(chunks, total, length);
    WindowsTile(total, length);
  }
}
