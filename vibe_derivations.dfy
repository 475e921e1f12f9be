/**
 * The pure maps from vibe (nominally in [0, 1]) to shader parameters and the
 * liquid colour: two-point and three-point linear interpolation with fixed
 * anchors.
 */
module VibeDerivations {
  import Reals
  import Colour

  /** `lerp(v, a, b)`: from `a` at 0 to `b` at 1. */
  function Lerp(v: real, a: real, b: real): (r: real)
    ensures v == 0.0 ==> r == a
    ensures v == 1.0 ==> r == b
  {
    a + (b - a) * v
  }

  /** Between the anchors the interpolation never leaves the segment. */
  lemma LerpWithin(v: real, a: real, b: real)
    requires 0.0 <= v <= 1.0
    ensures Reals.Within(a, b, Lerp(v, a, b))
  {
    Reals.StepWithin(a, b, v);
  }

  /**
   * `lerp3(v, v0, v05, v1)`: the lower half rescaled onto [v0, v05] up to and
   * including 0.5, the upper half onto [v05, v1]. At 0.5 the upper formula
   * gives the same value, so the two pieces join.
   */
  function Lerp3(v: real, v0: real, v05: real, v1: real): (r: real)
    ensures v == 0.0 ==> r == v0
    ensures v == 0.5 ==> r == v05 && r == Lerp((v - 0.5) * 2.0, v05, v1)
    ensures v == 1.0 ==> r == v1
  {
    if v <= 0.5 then Lerp(v * 2.0, v0, v05) else Lerp((v - 0.5) * 2.0, v05, v1)
  }

  /** On [0, 1] each half stays between its two anchors. */
  lemma Lerp3Within(v: real, v0: real, v05: real, v1: real)
    requires 0.0 <= v <= 1.0
    ensures v <= 0.5 ==> Reals.Within(v0, v05, Lerp3(v, v0, v05, v1))
    ensures 0.5 < v ==> Reals.Within(v05, v1, Lerp3(v, v0, v05, v1))
  {
    if v <= 0.5 {
      LerpWithin(v * 2.0, v0, v05);
    } else {
      LerpWithin((v - 0.5) * 2.0, v05, v1);
    }
  }

  /** `getViscosity`: falls linearly from 0.9 at vibe 0 to 0.1 at vibe 1. */
  function GetViscosity(vibe: real): (r: real)
    ensures r == 0.9 - 0.8 * vibe
    ensures 0.0 <= vibe <= 1.0 ==> 0.1 <= r <= 0.9
  {
    Lerp(vibe, 0.9, 0.1)
  }

  function GetDistortion(vibe: real): (r: real)
    ensures vibe == 0.0 ==> r == 0.4
    ensures vibe == 0.5 ==> r == 0.1
    ensures vibe == 1.0 ==> r == 1.2
  {
    Lerp3(vibe, 0.4, 0.1, 1.2)
  }

  /** The distortion bottoms out at the neutral 0.1 and peaks at 1.2. */
  lemma DistortionRange(vibe: real)
    requires 0.0 <= vibe <= 1.0
    ensures 0.1 <= GetDistortion(vibe) <= 1.2
  {
    Lerp3Within(vibe, 0.4, 0.1, 1.2);
  }

  function GetDistortionScale(vibe: real): (r: real)
    ensures vibe == 0.0 ==> r == 0.3
    ensures vibe == 0.5 ==> r == 0.1
    ensures vibe == 1.0 ==> r == 0.8
  {
    Lerp3(vibe, 0.3, 0.1, 0.8)
  }

  lemma DistortionScaleRange(vibe: real)
    requires 0.0 <= vibe <= 1.0
    ensures 0.1 <= GetDistortionScale(vibe) <= 0.8
  {
    Lerp3Within(vibe, 0.3, 0.1, 0.8);
  }

  function GetTemporalDistortion(vibe: real): (r: real)
    ensures vibe == 0.0 ==> r == 0.05
    ensures vibe == 0.5 ==> r == 0.0
    ensures vibe == 1.0 ==> r == 0.3
  {
    Lerp3(vibe, 0.05, 0.0, 0.3)
  }

  /** Time distortion vanishes at the neutral point and never exceeds 0.3. */
  lemma TemporalDistortionRange(vibe: real)
    requires 0.0 <= vibe <= 1.0
    ensures 0.0 <= GetTemporalDistortion(vibe) <= 0.3
  {
    Lerp3Within(vibe, 0.05, 0.0, 0.3);
  }

  function GetChromaticOffset(vibe: real): (r: real)
    ensures vibe == 0.0 ==> r == 0.005
    ensures vibe == 0.5 ==> r == 0.0
    ensures vibe == 1.0 ==> r == 0.02
  {
    Lerp3(vibe, 0.005, 0.0, 0.02)
  }

  /** The offset is never negative and its largest value, 0.02, is the one reached at vibe 1. */
  lemma ChromaticOffsetRange(vibe: real)
    requires 0.0 <= vibe <= 1.0
    ensures 0.0 <= GetChromaticOffset(vibe) <= GetChromaticOffset(1.0)
  {
    Lerp3Within(vibe, 0.005, 0.0, 0.02);
  }

  const VibeColors: seq<string> := ["#1A0B2E", "#C0C0C0", "#CCFF00"]

  /** One channel of `getColor`: `c0 + (c1 - c0) * t`. */
  function ChannelLerp(c0: int, c1: int, t: real): real {
    c0 as real + (c1 - c0) as real * t
  }

  /**
   * `getColor(vibe)`: up to and including 0.5 the colour runs from deep
   * purple to silver, above it from silver to acid green. Channels are
   * clamped before printing, so the result is a well-formed colour for
   * every vibe, inside [0, 1] or not.
   */
  function GetColor(vibe: real): (s: string)
    ensures Colour.IsLowerHexColour(s)
  {
    var c0 := Colour.HexToRgb(VibeColors[0]);
    var c1 := Colour.HexToRgb(VibeColors[1]);
    var c2 := Colour.HexToRgb(VibeColors[2]);
    if vibe <= 0.5 then
      var t := vibe * 2.0;
      Colour.RgbToHex(ChannelLerp(c0.r, c1.r, t), ChannelLerp(c0.g, c1.g, t), ChannelLerp(c0.b, c1.b, t))
    else
      var t := (vibe - 0.5) * 2.0;
      Colour.RgbToHex(ChannelLerp(c1.r, c2.r, t), ChannelLerp(c1.g, c2.g, t), ChannelLerp(c1.b, c2.b, t))
  }

  /** Vibe 0 gives the first anchor colour, lower-cased. */
  lemma ColorAtZero()
    ensures GetColor(0.0) == "#1a0b2e"
  {
    var c0 := Colour.HexToRgb(VibeColors[0]);
    var c1 := Colour.HexToRgb(VibeColors[1]);
    assert GetColor(0.0) == Colour.RgbToHex(ChannelLerp(c0.r, c1.r, 0.0), ChannelLerp(c0.g, c1.g, 0.0), ChannelLerp(c0.b, c1.b, 0.0));
    assert ChannelLerp(c0.r, c1.r, 0.0) == c0.r as real;
    assert ChannelLerp(c0.g, c1.g, 0.0) == c0.g as real;
    assert ChannelLerp(c0.b, c1.b, 0.0) == c0.b as real;
    Colour.HexRoundTrip(VibeColors[0]);
    LowerAnchor0();
  }

  /** Vibe 0.5 gives the silver middle anchor, lower-cased. */
  lemma ColorAtHalf()
    ensures GetColor(0.5) == "#c0c0c0"
  {
    var c0 := Colour.HexToRgb(VibeColors[0]);
    var c1 := Colour.HexToRgb(VibeColors[1]);
    assert GetColor(0.5) == Colour.RgbToHex(ChannelLerp(c0.r, c1.r, 1.0), ChannelLerp(c0.g, c1.g, 1.0), ChannelLerp(c0.b, c1.b, 1.0));
    assert ChannelLerp(c0.r, c1.r, 1.0) == c1.r as real;
    assert ChannelLerp(c0.g, c1.g, 1.0) == c1.g as real;
    assert ChannelLerp(c0.b, c1.b, 1.0) == c1.b as real;
    Colour.HexRoundTrip(VibeColors[1]);
    LowerAnchor1();
  }

  /** Vibe 1 gives the acid-green last anchor, lower-cased. */
  lemma ColorAtOne()
    ensures GetColor(1.0) == "#ccff00"
  {
    var c1 := Colour.HexToRgb(VibeColors[1]);
    var c2 := Colour.HexToRgb(VibeColors[2]);
    assert GetColor(1.0) == Colour.RgbToHex(ChannelLerp(c1.r, c2.r, 1.0), ChannelLerp(c1.g, c2.g, 1.0), ChannelLerp(c1.b, c2.b, 1.0));
    assert ChannelLerp(c1.r, c2.r, 1.0) == c2.r as real;
    assert ChannelLerp(c1.g, c2.g, 1.0) == c2.g as real;
    assert ChannelLerp(c1.b, c2.b, 1.0) == c2.b as real;
    Colour.HexRoundTrip(VibeColors[2]);
    LowerAnchor2();
  }

  lemma LowerAnchor0()
    ensures Colour.LowerAscii(VibeColors[0]) == "#1a0b2e"
  {
    var t := Colour.LowerAscii(VibeColors[0]);
    assert t == [t[0], t[1], t[2], t[3], t[4], t[5], t[6]];
  }

  lemma LowerAnchor1()
    ensures Colour.LowerAscii(VibeColors[1]) == "#c0c0c0"
  {
    var t := Colour.LowerAscii(VibeColors[1]);
    assert t == [t[0], t[1], t[2], t[3], t[4], t[5], t[6]];
  }

  lemma LowerAnchor2()
    ensures Colour.LowerAscii(VibeColors[2]) == "#ccff00"
  {
    var t := Colour.LowerAscii(VibeColors[2]);
    assert t == [t[0], t[1], t[2], t[3], t[4], t[5], t[6]];
  }
}
