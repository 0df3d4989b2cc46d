/** Normalising an interleaved RGB image into planar channels. */
module ImageLayout {
  import opened Bytes

  // Exact rationals in place of 32-bit floats.
  const MEAN := [0.485, 0.456, 0.406]
  const STD := [0.229, 0.224, 0.225]

  function Normalise(value: Byte, channel: nat): real
    requires channel < 3
  {
    (value as real / 255.0 - MEAN[channel]) / STD[channel]
  }

  /** Where sample `k` of the interleaved image goes. */
  function Target(k: nat, plane: nat): nat {
    k % 3 * plane + k / 3
  }

  /** Where planar cell `j` comes from. */
  function Origin(j: nat, plane: nat): nat
    requires plane > 0
  {
    j % plane * 3 + j / plane
  }

  lemma DivMod(a: nat, b: nat, d: nat)
    requires a < d
    ensures (b * d + a) / d == b && (b * d + a) % d == a
  {
    assert (b * d + a) / d == b by {
      if (b * d + a) / d > b {
        Scale(b + 1, (b * d + a) / d, d);
      } else if (b * d + a) / d < b {
        Scale((b * d + a) / d + 1, b, d);
      }
    }
  }

  lemma Scale(a: nat, b: nat, d: nat)
    requires a <= b
    ensures a * d <= b * d
  {
  }

  lemma TargetThenOrigin(k: nat, plane: nat)
    requires k < 3 * plane
    ensures Target(k, plane) < 3 * plane && Origin(Target(k, plane), plane) == k
  {
    Scale(k % 3, 2, plane);
    DivMod(k / 3, k % 3, plane);
  }

  lemma OriginThenTarget(j: nat, plane: nat)
    requires plane > 0 && j < 3 * plane
    ensures Origin(j, plane) < 3 * plane && Target(Origin(j, plane), plane) == j
  {
    var c, d := j / plane, j % plane;
    assert j == c * plane + d;
    if c >= 3 {
      Scale(3, c, plane);
    }
    DivMod(c, d, 3);
  }

  /** No planar cell is written twice. */
  lemma TargetsDiffer(k: nat, m: nat, plane: nat)
    requires k < 3 * plane && m < 3 * plane && k != m
    ensures Target(k, plane) != Target(m, plane)
  {
    TargetThenOrigin(k, plane);
    TargetThenOrigin(m, plane);
  }

  /** In coordinates: channel `c` of pixel `(x, y)`. */
  lemma TargetOfPixel(c: nat, y: nat, x: nat, side: nat)
    requires c < 3 && y < side && x < side
    ensures (y * side + x) * 3 + c < 3 * (side * side)
    ensures Target((y * side + x) * 3 + c, side * side) == c * (side * side) + y * side + x
  {
    DivMod(c, y * side + x, 3);
    PixelInPlane(y, x, side);
  }

  lemma PixelInPlane(y: nat, x: nat, side: nat)
    requires y < side && x < side
    ensures y * side + x < side * side
  {
    Scale(y + 1, side, side);
  }

  predicate Written(chw: seq<real>, pixels: seq<Byte>, plane: nat, n: nat)
    requires |chw| == |pixels| == 3 * plane && n <= 3 * plane
  {
    forall k: nat :: k < n ==> Target(k, plane) < |chw| && chw[Target(k, plane)] == Normalise(pixels[k], k % 3)
  }

  lemma WriteOne(before: seq<real>, after: seq<real>, pixels: seq<Byte>, plane: nat, n: nat)
    requires |before| == |pixels| == 3 * plane && n < 3 * plane && Target(n, plane) < 3 * plane
    requires Written(before, pixels, plane, n)
    requires after == before[Target(n, plane) := Normalise(pixels[n], n % 3)]
    ensures Written(after, pixels, plane, n + 1)
  {
    forall k: nat | k < n
      ensures Target(k, plane) < 3 * plane && after[Target(k, plane)] == Normalise(pixels[k], k % 3)
    {
      TargetsDiffer(k, n, plane);
    }
  }

  /** Every planar cell holds the normalised sample of its pixel and channel. */
  ghost predicate PlanarImage(chw: seq<real>, pixels: seq<Byte>, side: nat) {
    && |chw| == |pixels| == 3 * (side * side)
    && forall c: nat, y: nat, x: nat :: c < 3 && y < side && x < side ==> CellHolds(chw, pixels, side, c, y, x)
  }

  predicate CellHolds(chw: seq<real>, pixels: seq<Byte>, side: nat, c: nat, y: nat, x: nat)
    requires c < 3
  {
    && c * (side * side) + y * side + x < |chw| && (y * side + x) * 3 + c < |pixels|
    && chw[c * (side * side) + y * side + x] == Normalise(pixels[(y * side + x) * 3 + c], c)
  }

  lemma WrittenIsPlanar(chw: seq<real>, pixels: seq<Byte>, side: nat)
    requires |chw| == |pixels| == 3 * (side * side) && Written(chw, pixels, side * side, 3 * (side * side))
    ensures PlanarImage(chw, pixels, side)
  {
    forall c: nat, y: nat, x: nat | c < 3 && y < side && x < side
      ensures CellHolds(chw, pixels, side, c, y, x)
    {
      TargetOfPixel(c, y, x, side);
      var k := (y * side + x) * 3 + c;
      DivMod(c, y * side + x, 3);
      assert Target(k, side * side) < |chw|;
    }
  }

  /** The sample the inner loop is at, and where it goes. */
  lemma SampleAt(channel: nat, y: nat, x: nat, side: nat)
    requires channel < 3 && y < side && x < side
    ensures var k, plane := (y * side + x) * 3 + channel, side * side;
            && k < 3 * plane && k % 3 == channel
            && Target(k, plane) == channel * plane + (y * side + x) < 3 * plane
  {
    DivMod(channel, y * side + x, 3);
    PixelInPlane(y, x, side);
    TargetThenOrigin((y * side + x) * 3 + channel, side * side);
  }

  /** The resized image has one byte per channel and pixel, row by row. */
  method ToPlanar(pixels: array<Byte>, side: nat) returns (chw: array<real>)
    requires pixels.Length == 3 * (side * side)
    ensures fresh(chw) && PlanarImage(chw[..], pixels[..], side)
  {
    var plane := side * side;
    chw := new real[3 * plane](_ => 0.0);
    for y := 0 to side
      invariant y * side <= plane
      invariant Written(chw[..], pixels[..], plane, 3 * (y * side))
    {
      Scale(y + 1, side, side);
      for x := 0 to side
        invariant (y + 1) * side <= plane
        invariant Written(chw[..], pixels[..], plane, 3 * (y * side + x))
      {
        var src := (y * side + x) * 3;
        var dst := y * side + x;
        for channel := 0 to 3
          invariant Written(chw[..], pixels[..], plane, src + channel)
        {
          SampleAt(channel, y, x, side);
          ghost var before := chw[..];
          var value := pixels[src + channel] as real / 255.0;
          chw[channel * plane + dst] := (value - MEAN[channel]) / STD[channel];
          WriteOne(before, chw[..], pixels[..], plane, src + channel);
        }
      }
    }
    WrittenIsPlanar(chw[..], pixels[..], side);
  }

  /** Normalising loses nothing: scaling by the deviation and shifting by the mean gives the byte back. */
  lemma NormaliseInverts(value: Byte, channel: nat)
    requires channel < 3
    ensures (Normalise(value, channel) * STD[channel] + MEAN[channel]) * 255.0 == value as real
  {
  }
}
