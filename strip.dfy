/** The colour-encoding pipeline of the thingflow driver: a three-segment
    colour wheel, a dimmed RGB encoder and the "VU meter" that turns one
    0..255 level into a 30-byte buffer for the ten pixels.

    The floats of the source are written in exact integer form: the step
    255/10 = 25.5 becomes 51/2, `max_brightness = 0.05` becomes 1/20, and a
    brightness is given in units of 1/255 (the only brightness the pipeline
    passes is `level / 255`, and the default 1 is 255/255). */
module Strip {
  import opened Common

  /** `wheel(level)`: red ramps up on [0, 85), red falls while green rises on
      [85, 170), green falls while blue rises from 170 on. */
  function Wheel(level: int): (c: Rgb)
    ensures 0 <= level <= 255 ==> ChannelsWithin(c, 0, 255)
    ensures 0 <= level <= 255 ==> c.r == 0 || c.g == 0 || c.b == 0
  {
    if level < 85 then Rgb(level * 3, 0, 0)
    else if level < 170 then
      var l := level - 85;
      Rgb(255 - l * 3, l * 3, 0)
    else
      var l := level - 170;
      Rgb(0, 255 - l * 3, l * 3)
  }

  lemma WheelBoundaryValues()
    ensures Wheel(0) == Rgb(0, 0, 0)
    ensures Wheel(84) == Rgb(252, 0, 0)
    ensures Wheel(85) == Rgb(255, 0, 0)
    ensures Wheel(169) == Rgb(3, 252, 0)
    ensures Wheel(170) == Rgb(0, 255, 0)
    ensures Wheel(255) == Rgb(0, 0, 255)
  {
  }

  function Distance(x: int, y: int): nat { if x <= y then y - x else x - y }

  /** The ramp has no jump: one step of the level moves every channel by at
      most 3, across the segment boundaries at 85 and 170 too. */
  lemma WheelIsContinuous(level: int)
    requires 0 <= level < 255
    ensures Distance(Wheel(level).r, Wheel(level + 1).r) <= 3
    ensures Distance(Wheel(level).g, Wheel(level + 1).g) <= 3
    ensures Distance(Wheel(level).b, Wheel(level + 1).b) <= 3
  {
  }

  /** `level_to_rgb(level, brightness / 255)`: the wheel colour of the clamped
      level, each channel scaled by the clamped brightness and by 0.05 and
      rounded down. */
  function LevelToRgb(level: int, brightness: int): (c: Rgb)
    ensures ChannelsWithin(c, 0, 12)
    ensures brightness <= 0 ==> c == Rgb(0, 0, 0)
    ensures level <= 0 ==> c == Rgb(0, 0, 0)
  {
    var b := Clamp(brightness, 0, 255);
    var w := Wheel(Clamp(level, 0, 255));
    Rgb(Dim(w.r, b), Dim(w.g, b), Dim(w.b, b))
  }

  /** Clamping happens inside: an out-of-range level or brightness encodes
      like the nearest end of its range. */
  lemma LevelToRgbClampsInputs(level: int, brightness: int)
    ensures LevelToRgb(level, brightness) == LevelToRgb(Clamp(level, 0, 255), Clamp(brightness, 0, 255))
  {
  }

  /** At full brightness every channel is the wheel channel divided by 20. */
  lemma LevelToRgbAtFullBrightness(level: int)
    requires 0 <= level <= 255
    ensures LevelToRgb(level, 255) == Rgb(Wheel(level).r / 20, Wheel(level).g / 20, Wheel(level).b / 20)
  {
  }

  /** The `levels` list of `vumeter`: pixel i gets the colour level
      int(25.5 * (i + 1)) while 25.5 * i < level, and 0 otherwise. */
  function Levels(level: int): (ls: seq<int>)
    ensures |ls| == PixelCount
    ensures forall i :: 0 <= i < PixelCount ==> 0 <= ls[i] <= 255
  {
    seq(PixelCount, i => if 51 * i < 2 * level then 51 * (i + 1) / 2 else 0)
  }

  /** How many pixels `vumeter` lights for a level: the least i with
      25.5 * i >= level, capped at 10. */
  function LitCount(level: int): (n: nat)
    ensures n <= PixelCount
  {
    if level <= 0 then 0
    else if 2 * level > 51 * 9 then PixelCount
    else (2 * level + 50) / 51
  }

  /** The lit pixels are exactly the first LitCount(level) ones; every lit
      pixel has a non-zero colour level. */
  lemma LevelsLitPrefix(level: int)
    ensures |Levels(level)| == PixelCount
    ensures forall i :: 0 <= i < PixelCount ==> (Levels(level)[i] != 0 <==> i < LitCount(level))
    ensures forall i :: 0 <= i < PixelCount ==> 0 <= Levels(level)[i] <= 255
  {
  }

  /** Raising the level never turns a lit pixel off. */
  lemma LitCountMonotone(level: int, level': int)
    requires level <= level'
    ensures LitCount(level) <= LitCount(level')
  {
  }

  /** The ten RGB triples of the VU meter before the first-pixel correction:
      each lit pixel's colour, dimmed by level / 255. */
  function VumeterColors(level: int): seq<Rgb>
  {
    seq(PixelCount, i requires 0 <= i < PixelCount => LevelToRgb(Levels(level)[i], level))
  }

  /** The bytes `sum((level_to_rgb(l, level/255) for l in levels), ())`. */
  function VumeterRaw(level: int): (s: seq<Byte>)
    ensures |s| == 3 * PixelCount
    ensures forall i :: 0 <= i < |s| ==> s[i] <= 12
  {
    var s := Flatten(VumeterColors(level));
    assert forall i :: 0 <= i < |s| ==> 0 <= s[i] <= 12 by {
      forall i | 0 <= i < |s| ensures 0 <= s[i] <= 12 {
        assert ChannelsWithin(VumeterColors(level)[i / 3], 0, 12);
      }
    }
    s
  }

  /** The buffer `vumeter` returns: the raw buffer, with byte 0 raised from 0
      to 1 when level > 18. */
  function VumeterBytes(level: int): (s: seq<Byte>)
    ensures |s| == 3 * PixelCount
    ensures 18 < level ==> s[0] >= 1
  {
    var raw := VumeterRaw(level);
    if raw[0] == 0 && 18 < level then raw[0 := 1] else raw
  }

  /** `vumeter(level)`: builds the buffer, then corrects its first byte in
      place. */
  method Vumeter(level: int) returns (buf: array<Byte>)
    ensures fresh(buf)
    ensures buf[..] == VumeterBytes(level)
  {
    var raw := VumeterRaw(level);
    buf := new Byte[3 * PixelCount](i requires 0 <= i < 3 * PixelCount => raw[i]);
    if buf[0] == 0 && 18 < level {
      buf[0] := 1;
    }
  }

  /** The buffer always has 30 bytes, each at most floor(255 * 0.05) = 12. */
  lemma VumeterBounds(level: int)
    ensures |VumeterBytes(level)| == 30
    ensures forall i :: 0 <= i < 30 ==> VumeterBytes(level)[i] <= 12
  {
  }

  /** A level of 0 or below turns every pixel off. */
  lemma VumeterOffAtZero(level: int)
    requires level <= 0
    ensures VumeterBytes(level) == seq(30, _ => 0)
  {
  }

  /** Above 18 the first pixel's red byte is at least 1; the correction
      touches byte 0 only, and only when it was 0. */
  lemma VumeterFloorCorrection(level: int)
    ensures 18 < level ==> VumeterBytes(level)[0] >= 1
    ensures VumeterBytes(level)[1..] == VumeterRaw(level)[1..]
    ensures VumeterBytes(level)[0] != VumeterRaw(level)[0] ==> VumeterRaw(level)[0] == 0 && VumeterBytes(level)[0] == 1
  {
  }

  /** The first byte is the red channel of wheel(25) = 75 dimmed by the
      level, so it is 0 exactly below 68, and the correction changes the
      buffer exactly for levels 19..67. */
  lemma VumeterCorrectionRange(level: int)
    ensures VumeterRaw(level)[0] == 0 <==> level < 68
    ensures VumeterBytes(level) != VumeterRaw(level) <==> 18 < level < 68
  {
    var raw := VumeterRaw(level);
    assert raw[0] == LevelToRgb(Levels(level)[0], level).r;
    if 0 < level {
      assert Levels(level)[0] == 25;
      assert raw[0] == Dim(75, Clamp(level, 0, 255));
    }
  }
}
