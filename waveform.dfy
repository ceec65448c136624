/**
 * `AIWaveform.generatePath` (frontend/src/App.jsx): the SVG path drawn over the
 * 2048 x 192 wall. With a live signal every byte of the analyser's time-domain
 * buffer becomes one line segment; otherwise an idle curve of 121 points is drawn.
 *
 * The idle curve's height is a sine/cosine of the elapsed time, which is not
 * modelled: an idle point carries only its index.
 */
module Waveform {
  const Width: real := 2048.0
  const CenterY: real := 96.0
  /** The vertical gain applied to a sample's offset from the centre. */
  const Gain: real := 85.0
  /** The idle curve has `IdlePoints + 1` points. */
  const IdlePoints := 120

  /** The height of a point: a sample's value, or the idle oscillation of point `i`. */
  datatype Height = Sample(y: real) | Idle(i: nat)

  /** One path command: `M x y` or `L x y`. */
  datatype Cmd = Move(x: real, y: real) | Line(x: real, h: Height)

  /** A byte counts as silence when it lies in [126, 130], around the 128 midpoint. */
  predicate Quiet(v: bv8)
  {
    126 <= v <= 130
  }

  /** `rawData.every(v => v >= 126 && v <= 130)`. */
  function Every(data: seq<bv8>): bool
  {
    if data == [] then true else Quiet(data[0]) && Every(data[1..])
  }

  lemma {:induction false} EveryMeaning(data: seq<bv8>)
    ensures Every(data) <==> forall i :: 0 <= i < |data| ==> Quiet(data[i])
  {
    if data != [] {
      EveryMeaning(data[1..]);
      assert forall i :: 1 <= i < |data| ==> data[i] == data[1..][i - 1];
    }
  }

  predicate HasSignal(data: seq<bv8>)
  {
    |data| > 0 && !Every(data)
  }

  /** There is a signal exactly when the buffer is not empty and some byte is not silence. */
  lemma HasSignalMeaning(data: seq<bv8>)
    ensures HasSignal(data) <==> exists i :: 0 <= i < |data| && !Quiet(data[i])
  {
    EveryMeaning(data);
  }

  /** The x position of sample `i` of `n`: `i * (width / n)`. */
  function SampleX(i: nat, n: nat): (x: real)
    requires n > 0
    ensures i < n ==> 0.0 <= x < Width
  {
    var w := Width / n as real;
    assert i < n ==> 0.0 <= i as real * w < Width by {
      if i < n {
        assert w * n as real == Width;
        assert Width - i as real * w == (n - i) as real * w;
        NonNegative(i as real, w);
        Positive((n - i) as real, w);
      }
    }
    i as real * w
  }

  /** The y position of a sample: `centerY + (v / 128 - 1) * 85`. */
  function SampleY(v: bv8): (y: real)
    ensures 11.0 <= y <= CenterY + Gain * 127.0 / 128.0
  {
    CenterY + ((v as int) as real / 128.0 - 1.0) * Gain
  }

  /** The x position of idle point `i`: `i * (width / 120)`. */
  function IdleX(i: nat): (x: real)
    ensures i <= IdlePoints ==> 0.0 <= x <= Width
  {
    i as real * (Width / IdlePoints as real)
  }

  /** The path `generatePath` returns. */
  method GeneratePath(data: seq<bv8>) returns (path: seq<Cmd>)
    ensures |path| > 0 && path[0] == Move(0.0, CenterY)
    ensures HasSignal(data) ==> |path| == |data| + 1
    ensures HasSignal(data) ==>
      forall i :: 0 <= i < |data| ==> path[i + 1] == Line(SampleX(i, |data|), Sample(SampleY(data[i])))
    ensures !HasSignal(data) ==> |path| == IdlePoints + 2
    ensures !HasSignal(data) ==>
      forall i :: 0 <= i <= IdlePoints ==> path[i + 1] == Line(IdleX(i), Idle(i))
  {
    path := [Move(0.0, CenterY)];
    if |data| > 0 && !Every(data) {
      var n := |data|;
      var sliceWidth := Width / n as real;
      var i := 0;
      while i < n
        invariant 0 <= i <= n
        invariant |path| == i + 1 && path[0] == Move(0.0, CenterY)
        invariant forall j :: 0 <= j < i ==> path[j + 1] == Line(SampleX(j, n), Sample(SampleY(data[j])))
      {
        var x := i as real * sliceWidth;
        var v := (data[i] as int) as real / 128.0;
        var y := CenterY + (v - 1.0) * Gain;
        path := path + [Line(x, Sample(y))];
        i := i + 1;
      }
    } else {
      var step := Width / IdlePoints as real;
      var i := 0;
      while i <= IdlePoints
        invariant 0 <= i <= IdlePoints + 1
        invariant |path| == i + 1 && path[0] == Move(0.0, CenterY)
        invariant forall j :: 0 <= j < i ==> path[j + 1] == Line(IdleX(j), Idle(j))
      {
        path := path + [Line(i as real * step, Idle(i))];
        i := i + 1;
      }
    }
  }

  /** The samples are spread left to right across the width, each strictly right of the last. */
  lemma SampleXBounds(i: nat, j: nat, n: nat)
    requires i < j < n
    ensures 0.0 <= SampleX(i, n) < SampleX(j, n) < Width
  {
    var w := Width / n as real;
    assert w > 0.0;
    assert w * n as real == Width;
    assert SampleX(j, n) - SampleX(i, n) == (j - i) as real * w;
    assert Width - SampleX(j, n) == (n - j) as real * w;
    Positive((j - i) as real, w);
    Positive((n - j) as real, w);
    NonNegative(i as real, w);
  }

  lemma Positive(a: real, b: real)
    requires a > 0.0 && b > 0.0
    ensures a * b > 0.0
  {
  }

  lemma NonNegative(a: real, b: real)
    requires a >= 0.0 && b >= 0.0
    ensures a * b >= 0.0
  {
  }

  /** A sample's height lies between 11 (byte 0) and 96 + 85 * 127/128 (byte 255). */
  lemma SampleYBounds(v: bv8)
    ensures 11.0 <= SampleY(v) <= CenterY + Gain * 127.0 / 128.0
    ensures SampleY(v) == CenterY <==> v == 128
  {
    var k := (v as int) as real;
    assert 0.0 <= k <= 255.0;
    assert SampleY(v) == 11.0 + k * 85.0 / 128.0;
  }

  /** The idle curve runs from the left edge to the right edge, evenly spaced. */
  lemma IdleXBounds(i: nat)
    requires i <= IdlePoints
    ensures 0.0 <= IdleX(i) <= Width
    ensures i == IdlePoints ==> IdleX(i) == Width
  {
    assert IdleX(i) == i as real * Width / 120.0;
  }
}
