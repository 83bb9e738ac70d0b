/** The colour-encoding pipeline of the cpx_demo driver: `vumeter` with its
    default arguments (10 pixels, `bright_coef = 0.05`) and the helpers it
    nests: a two-segment wheel, the RGB encoder, the per-pixel VU meter
    brightness and the fixed colour ramp.

    Floats are written exactly: the step 255/10 = 25.5 becomes 51/2 and a
    brightness b/255 is passed as b. */
module DemoStrip {
  import opened Common

  /** Nested `wheel(level)`: the level is clamped to [0, 256]; red falls
      while green rises below 128, green falls while blue rises up to 255,
      and 256 is pure blue. */
  function Wheel(level: int): (c: Rgb)
    ensures ChannelsWithin(c, 0, 255)
    ensures c.r + c.g + c.b == 255
  {
    var l := Clamp(level, 0, 256);
    if l < 128 then Rgb(255 - l * 2, l * 2, 0)
    else if l < 256 then
      var l' := l - 128;
      Rgb(0, 255 - l' * 2, l' * 2)
    else Rgb(0, 0, 255)
  }

  /** The values of the nested `wheel`'s doc comment (which labels them
      `level_to_rgb`), and the clamping at both ends. */
  lemma WheelDocValues(below: int, above: int)
    requires below <= 0 && 256 <= above
    ensures Wheel(0) == Rgb(255, 0, 0)
    ensures Wheel(127) == Rgb(1, 254, 0)
    ensures Wheel(128) == Rgb(0, 255, 0)
    ensures Wheel(255) == Rgb(0, 1, 254)
    ensures Wheel(256) == Rgb(0, 0, 255)
    ensures Wheel(below) == Wheel(0) && Wheel(above) == Wheel(256)
  {
  }

  /** Nested `level_to_rgb(level, brightness / 255)`: the wheel colour with
      each channel scaled by the clamped brightness and by 0.05, rounded
      down. The level itself is clamped by the wheel. */
  function LevelToRgb(level: int, brightness: int): (c: Rgb)
    ensures ChannelsWithin(c, 0, 12)
    ensures brightness <= 0 ==> c == Rgb(0, 0, 0)
  {
    var b := Clamp(brightness, 0, 255);
    var w := Wheel(level);
    Rgb(Dim(w.r, b), Dim(w.g, b), Dim(w.b, b))
  }

  /** The partly lit pixel's brightness, int(level % 25.5 * 10). */
  function Partial(level: int): int
  {
    5 * ((2 * level) % 51)
  }

  /** Nested `vumeter_brightness(level)`: pixel i is 0 below 25.5 * i, 255
      from 25.5 * (i + 1) on, and the partial value in between. Brightness
      never rises along the strip. */
  function Brightness(level: int): (bs: seq<Byte>)
    ensures |bs| == PixelCount
    ensures forall i :: 0 < i < PixelCount ==> bs[i] <= bs[i - 1]
  {
    seq(PixelCount, i => if 2 * level < 51 * i then 0
                         else if 51 * (i + 1) <= 2 * level then 255
                         else Partial(level))
  }

  /** How many pixels are fully lit: floor(level / 25.5), within [0, 10]. */
  function FullCount(level: int): (n: nat)
    ensures n <= PixelCount
  {
    if level <= 0 then 0 else if 2 * level >= 51 * 10 then PixelCount else (2 * level) / 51
  }

  /** The brightness list is a run of 255s, then at most one partial value
      (a multiple of 5 up to 250), then 0s. */
  lemma BrightnessShape(level: int)
    ensures |Brightness(level)| == PixelCount
    ensures forall i :: 0 <= i < FullCount(level) ==> Brightness(level)[i] == 255
    ensures FullCount(level) < PixelCount ==>
      Brightness(level)[FullCount(level)] == (if level < 0 then 0 else Partial(level))
    ensures forall i :: FullCount(level) < i < PixelCount ==> Brightness(level)[i] == 0
    ensures 0 <= Partial(level) <= 250 && Partial(level) % 5 == 0
  {
  }

  /** The examples of `vumeter_brightness`'s doc comment. */
  lemma BrightnessDocValues()
    ensures Brightness(0) == [0, 0, 0, 0, 0, 0, 0, 0, 0, 0]
    ensures Brightness(1) == [10, 0, 0, 0, 0, 0, 0, 0, 0, 0]
    ensures Brightness(25) == [250, 0, 0, 0, 0, 0, 0, 0, 0, 0]
    ensures Brightness(26) == [255, 5, 0, 0, 0, 0, 0, 0, 0, 0]
    ensures Brightness(255) == [255, 255, 255, 255, 255, 255, 255, 255, 255, 255]
  {
  }

  /** `colors = [int(i * 256 / 10) for i in range(10)]`. */
  function Colors(): (cs: seq<int>)
    ensures |cs| == PixelCount
    ensures forall i :: 0 <= i < PixelCount ==> 0 <= cs[i] < 256
  {
    seq(PixelCount, i => i * 256 / 10)
  }

  lemma ColorsValues()
    ensures Colors() == [0, 25, 51, 76, 102, 128, 153, 179, 204, 230]
    ensures forall i, j :: 0 <= i < j < PixelCount ==> Colors()[i] < Colors()[j]
    ensures forall i :: 0 <= i < PixelCount ==> 0 <= Colors()[i] < 256
  {
  }

  /** `vumeter(level)` with default arguments: pixel i has the ramp colour
      colors[i] at the VU meter brightness of pixel i. */
  function Vumeter(level: int): (s: seq<Byte>)
    ensures |s| == 3 * PixelCount
    ensures forall i :: 0 <= i < |s| ==> s[i] <= 12
  {
    var cs := Colors();
    var bs := Brightness(level);
    var ts := seq(PixelCount, i requires 0 <= i < PixelCount => LevelToRgb(cs[i], bs[i]));
    var s := Flatten(ts);
    assert forall i :: 0 <= i < |s| ==> 0 <= s[i] <= 12 by {
      forall i | 0 <= i < |s| ensures 0 <= s[i] <= 12 {
        assert ChannelsWithin(ts[i / 3], 0, 12);
      }
    }
    s
  }

  /** A level of 0 or below turns every pixel off. */
  lemma VumeterOffAtZero(level: int)
    requires level <= 0
    ensures Vumeter(level) == seq(30, _ => 0)
  {
  }
}
