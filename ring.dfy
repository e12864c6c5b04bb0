/** The index arithmetic of `MyEffect::delay` (EffectPlugin.cpp): a ring
    buffer with a pre-incremented write position and a read position a
    fixed offset behind it, wrapped once.

    `RingOf(h, n)` is the content a zeroed buffer of n cells holds after the
    inputs h were passed to `delay`, and `Past(h, d)` is the input of the
    call d calls before the most recent one (0 before the start).  The
    buffer's write position after h is `Pos(|h|, n)`. */
module Ring {
  import opened Numerics

  /** `(int)(l * 100) / 100.0`: the lookahead truncated toward zero to whole
      hundredths. */
  function Quantise(l: real): (q: real)
    ensures (q * 100.0).Floor as real == q * 100.0
    ensures l >= 0.0 ==> 0.0 <= q <= l < q + 0.01
    ensures l < 0.0 ==> q - 0.01 < l <= q <= 0.0
  {
    TruncToInt(l * 100.0) as real / 100.0
  }

  /** The read offset `delay` subtracts from the write position: the
      quantised lookahead (seconds) times the sample rate. */
  function Offset(lookahead: real, sr: real): real
  {
    Quantise(lookahead) * sr
  }

  /** The pre-increment of the write position, wrapped to 0 at the size. */
  function Next(w: int, size: int): (r: int)
    requires 0 <= w < size
    ensures 0 <= r < size
    ensures r == w + 1 || (r == 0 && w == size - 1)
  {
    if w + 1 == size then 0 else w + 1
  }

  /** The write position after k calls from position 0. */
  function Pos(k: nat, size: int): (r: int)
    requires size >= 1
    ensures 0 <= r < size
  {
    if k == 0 then 0 else Next(Pos(k - 1, size), size)
  }

  /** The cell d positions behind w, wrapped once. */
  function Back(w: int, d: int, size: int): (r: int)
    requires 0 <= w < size && 0 <= d <= size
    ensures 0 <= r < size
    ensures r == w - d || r == w - d + size
  {
    if w - d < 0 then w - d + size else w - d
  }

  /** `iBufferWritePos - off` truncated to int, plus the size when negative.
      For a whole offset this is the cell that many positions back. */
  function ReadIndex(w: int, off: real, size: int): (r: int)
    requires 0 <= w < size && 0.0 <= off <= size as real
    ensures 0 <= r < size
    ensures off == off.Floor as real ==> r == Back(w, off.Floor, size)
  {
    var r := TruncToInt(w as real - off);
    if r < 0 then r + size else r
  }

  function Zeros(n: nat): (z: seq<real>)
    ensures |z| == n && forall i :: 0 <= i < n ==> z[i] == 0.0
  {
    seq(n, _ => 0.0)
  }

  /** Buffer contents after the inputs h, starting from all zeros at write
      position 0: each call stores its input at the next write position. */
  function RingOf(h: seq<real>, n: int): (r: seq<real>)
    requires n >= 1
    ensures |r| == n
    decreases |h|
  {
    if h == [] then Zeros(n)
    else RingOf(h[..|h| - 1], n)[Pos(|h|, n) := h[|h| - 1]]
  }

  function Past(h: seq<real>, d: nat): real
  {
    if d < |h| then h[|h| - 1 - d] else 0.0
  }

  /** The ring invariant: for every offset d below the size, the cell d
      positions behind the write position holds the input of d calls ago, or
      0 if there were not that many calls. */
  lemma {:induction false} RingHolds(h: seq<real>, n: int, d: int)
    requires n >= 1 && 0 <= d < n
    ensures RingOf(h, n)[Back(Pos(|h|, n), d, n)] == Past(h, d)
    decreases |h|
  {
    if h == [] {
    } else if d > 0 {
      var p := h[..|h| - 1];
      RingHolds(p, n, d - 1);
      assert Back(Pos(|h|, n), d, n) == Back(Pos(|p|, n), d - 1, n);
      if d - 1 < |p| {
        assert p[|p| - 1 - (d - 1)] == h[|h| - 1 - d];
      }
    }
  }

  /** One `delay` call on a buffer `cells` at write position w with read
      offset `off` (the quantised lookahead times the sample rate): the new
      cells, the new write position and the returned sample. */
  function DelayStep(cells: seq<real>, w: int, x: real, off: real): (r: (seq<real>, int, real))
    requires 0 <= w < |cells| && 0.0 <= off <= |cells| as real
    ensures r.1 == Next(w, |cells|)
    ensures |r.0| == |cells| && r.0[r.1] == x
    ensures forall i :: 0 <= i < |cells| && i != r.1 ==> r.0[i] == cells[i]
    ensures r.2 == r.0[ReadIndex(r.1, off, |cells|)]
  {
    var w' := w + 1;
    var w'' := if w' == |cells| then 0 else w';
    var cells' := cells[w'' := x];
    (cells', w'', cells'[ReadIndex(w'', off, |cells|)])
  }

  /** `delay` keeps the ring invariant, and with an offset of D whole calls,
      0 <= D < n, it returns the input of the call exactly D calls back
      (0 before the start); D == 0 returns the input just stored. */
  lemma DelayStepKeepsRing(h: seq<real>, n: int, x: real, off: real)
    requires n >= 1 && 0.0 <= off <= n as real
    ensures var r := DelayStep(RingOf(h, n), Pos(|h|, n), x, off);
      r.0 == RingOf(h + [x], n) && r.1 == Pos(|h| + 1, n) &&
      (off == off.Floor as real && off < n as real ==> r.2 == Past(h + [x], off.Floor))
  {
    var h' := h + [x];
    assert h'[..|h'| - 1] == h;
    if off == off.Floor as real && off < n as real {
      RingHolds(h', n, off.Floor);
    }
  }

  /** An offset of the whole buffer size reads the cell just written: the
      returned sample is the input itself, not the one n calls back. */
  lemma DelayFullOffsetIsIdentity(cells: seq<real>, w: int, x: real)
    requires 0 <= w < |cells|
    ensures DelayStep(cells, w, x, |cells| as real).2 == x
  {
    var r := DelayStep(cells, w, x, |cells| as real);
    assert ReadIndex(r.1, |cells| as real, |cells|) == r.1;
  }
}
