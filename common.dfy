/** Values shared by the driver and both colour-encoding pipelines: bytes,
    RGB triples, the `clamp` helper and the flattening of triples into a
    pixel buffer. */
module Common {

  /** `CPX.neopixel_count` (`pixel_count` in the demo driver): the pixels on
      the board. */
  const PixelCount: nat := 10

  /** One element of a Python `bytearray`. */
  type Byte = b: int | 0 <= b < 256

  datatype Option<T> = None | Some(value: T)

  datatype Result<T, E> = Ok(value: T) | Err(error: E)

  /** An (r, g, b) tuple as the Python code builds it. Channels are plain
      integers: `wheel` outside its domain can produce negative values. */
  datatype Rgb = Rgb(r: int, g: int, b: int)

  /** An RGB tuple whose channels fit in a byte, as `bytearray` accepts. */
  type ByteRgb = c: Rgb | 0 <= c.r < 256 && 0 <= c.g < 256 && 0 <= c.b < 256
    witness Rgb(0, 0, 0)

  predicate ChannelsWithin(c: Rgb, lo: int, hi: int) {
    lo <= c.r <= hi && lo <= c.g <= hi && lo <= c.b <= hi
  }

  function Count(b: bool): nat { if b then 1 else 0 }

  /** `clamp(n, min, max)` is `sorted((min, n, max))[1]`: the median of the
      three arguments, which is the usual clamp whenever lo <= hi. */
  function Clamp(n: int, lo: int, hi: int): (m: int)
    ensures m == lo || m == n || m == hi
    ensures Count(lo <= m) + Count(n <= m) + Count(hi <= m) >= 2
    ensures Count(m <= lo) + Count(m <= n) + Count(m <= hi) >= 2
    ensures lo <= hi ==> lo <= m <= hi
    ensures lo <= n <= hi ==> m == n
    ensures lo <= hi && n < lo ==> m == lo
    ensures lo <= hi && hi < n ==> m == hi
  {
    if lo <= n then
      if n <= hi then n else if lo <= hi then hi else lo
    else
      if lo <= hi then lo else if n <= hi then hi else n
  }

  /** The channel of an RGB triple at offset j (0 = first, 1 = second, 2 = third). */
  function Channel(c: Rgb, j: int): int
    requires 0 <= j < 3
  {
    if j == 0 then c.r else if j == 1 then c.g else c.b
  }

  /** `sum(triples, ())`: the triples' channels one after another. */
  function Flatten(ts: seq<Rgb>): (s: seq<int>)
    ensures |s| == 3 * |ts|
    ensures forall i :: 0 <= i < |s| ==> s[i] == Channel(ts[i / 3], i % 3)
  {
    if ts == [] then []
    else
      var rest := Flatten(ts[1..]);
      var s := [ts[0].r, ts[0].g, ts[0].b] + rest;
      forall i | 3 <= i < |s| ensures s[i] == Channel(ts[i / 3], i % 3) {
        ShiftByTriple(i);
        assert s[i] == rest[i - 3];
      }
      s
  }

  lemma ShiftByTriple(i: int)
    requires 3 <= i
    ensures (i - 3) / 3 == i / 3 - 1 && (i - 3) % 3 == i % 3
  {
  }

  /** Exact form of `int(c * (b / 255) * 0.05)` for a channel c and a
      brightness of b/255, both already clamped: the product rounded down. */
  function Dim(c: int, b: int): (d: int)
    requires 0 <= c <= 255 && 0 <= b <= 255
    ensures 0 <= d <= 12
    ensures 5100 * d <= c * b < 5100 * (d + 1)
  {
    MulBound(c, b);
    c * b / 5100
  }

  lemma MulBound(c: int, b: int)
    requires 0 <= c <= 255 && 0 <= b <= 255
    ensures 0 <= c * b <= 255 * 255
  {
    assert c * b <= 255 * b;
  }
}
