/** `CPX`: the Circuit Playground Express seen through its REPL. It
    bootstraps the board's environment, reads the light sensor and drives
    the ten NeoPixels, remembering the last buffer it sent so that a single
    pixel can be changed. */
module Driver {
  import opened Common
  import opened Repl

  /** The lines the constructor sends, in order; the first, empty line puts
      the board in its REPL. */
  const BootstrapLines: seq<string> := [
    "",
    "import analogio, digitalio, board",
    "light = analogio.AnalogIn(board.LIGHT)",
    "from neopixel_write import neopixel_write",
    "neopixel_pin = digitalio.DigitalInOut(board.NEOPIXEL)",
    "neopixel_pin.direction = digitalio.Direction.OUTPUT",
    "neopixel = lambda buf: neopixel_write(neopixel_pin, buf)"
  ]

  /** What one `write` call puts on the wire for a line of plain text. */
  function Framed(text: string): Line { [Text(text), Text(Eol)] }

  /** Python's `s[:k]`: a negative k counts from the end, and k is cut to
      the bounds of s. */
  function PyTake<T>(s: seq<T>, k: int): (r: seq<T>)
    ensures 0 <= k <= |s| ==> r == s[..k]
    ensures |s| < k ==> r == s
  {
    var j := if k < 0 then k + |s| else k;
    if j <= 0 then [] else if j >= |s| then s else s[..j]
  }

  /** Python's `s[k:]`, with the same reading of k. */
  function PyDrop<T>(s: seq<T>, k: int): (r: seq<T>)
    ensures 0 <= k <= |s| ==> r == s[k..]
    ensures |s| < k ==> r == []
  {
    var j := if k < 0 then k + |s| else k;
    if j <= 0 then s else if j >= |s| then [] else s[j..]
  }

  /** The position of the input byte that lands at position i once the first
      two bytes of every triple are swapped. */
  function SwapPartner(i: nat): nat
  {
    if i % 3 == 0 then i + 1 else if i % 3 == 1 then i - 1 else i
  }

  /** `tuple(chain(*zip(buf[1::3], buf[0::3], buf[2::3])))`: every complete
      triple with its first two bytes swapped (RGB to GRB); `zip` drops an
      incomplete last triple. */
  function GrbSwap(s: seq<Byte>): (r: seq<Byte>)
    ensures |r| == 3 * (|s| / 3) && |r| <= |s|
    ensures forall i :: 0 <= i < |r| ==> SwapPartner(i) < |r| && r[i] == s[SwapPartner(i)]
  {
    if |s| < 3 then []
    else
      var rest := GrbSwap(s[3..]);
      var r := [s[1], s[0], s[2]] + rest;
      forall i | 3 <= i < |r| ensures SwapPartner(i) < |r| && r[i] == s[SwapPartner(i)] {
        SwapPartnerShift(i);
      }
      r
  }

  lemma SwapPartnerShift(i: nat)
    requires 3 <= i
    ensures SwapPartner(i) == SwapPartner(i - 3) + 3
    ensures i / 3 == (i - 3) / 3 + 1
  {
  }

  lemma SwapPartnerInvolutive(i: nat)
    ensures SwapPartner(SwapPartner(i)) == i
  {
  }

  /** Swapping twice gives back a buffer of whole triples. */
  lemma GrbSwapInvolution(s: seq<Byte>)
    requires |s| % 3 == 0
    ensures |GrbSwap(s)| == |s|
    ensures GrbSwap(GrbSwap(s)) == s
  {
    var once := GrbSwap(s);
    assert |once| == |s| by {
      assert |s| == 3 * (|s| / 3) + |s| % 3;
    }
    var twice := GrbSwap(once);
    forall i | 0 <= i < |s| ensures twice[i] == s[i] {
      SwapPartnerInvolutive(i);
    }
  }

  /** (r, g, b) as the (g, r, b) the pixels expect. */
  function Grb(c: ByteRgb): seq<Byte> { [c.g, c.r, c.b] }

  function Repeat<T>(s: seq<T>, n: nat): (r: seq<T>)
    ensures |r| == |s| * n
  {
    if n == 0 then [] else s + Repeat(s, n - 1)
  }

  /** `rgb * 10` for a triple: byte i is channel i % 3 of the triple. */
  lemma {:induction false} RepeatAt(t: seq<Byte>, n: nat)
    requires |t| == 3
    ensures forall i :: 0 <= i < 3 * n ==> Repeat(t, n)[i] == t[i % 3]
  {
    if n > 0 {
      RepeatAt(t, n - 1);
      var r := Repeat(t, n);
      forall i | 3 <= i < 3 * n ensures r[i] == t[i % 3] {
        ShiftByTriple(i);
        assert r[i] == Repeat(t, n - 1)[i - 3];
      }
    }
  }

  /** The effect of one `neopixel` call: nothing, or a line sent to the board
      together with the new cached buffer. */
  datatype PixelUpdate = Unchanged | Send(line: Line, cache: seq<Byte>)

  /** The branches of `CPX.neopixel(rgb, pix_nr, buf)` given the cached
      buffer. A buffer argument is swapped to GRB first; it is used only
      when neither a colour nor a pixel number is given, and only if the
      swapped buffer is not empty. A colour without a pixel number fills
      all ten pixels; a colour with one splices that pixel into the cache
      (with Python's slice semantics). A pixel number without a colour does
      nothing. */
  function PixelAction(cache: seq<Byte>, rgb: Option<ByteRgb>, pixNr: Option<int>, buf: Option<seq<Byte>>): (u: PixelUpdate)
    ensures rgb.Some? ==> u.Send?
    ensures u.Send? ==> |u.line| == 3 && u.line[0] == Text("neopixel(bytearray(") && u.line[1].Repr?
    ensures u.Send? && rgb.None? ==> buf.Some? && u.cache == GrbSwap(buf.value)
    ensures rgb.Some? && pixNr.None? ==> u.cache == Repeat(u.line[1].items, PixelCount)
    ensures u.Send? && !(rgb.Some? && pixNr.None?) ==> u.cache == u.line[1].items
  {
    var swapped := if buf.Some? && buf.value != [] then GrbSwap(buf.value) else [];
    if rgb.None? && pixNr.None? && swapped != [] then
      Send([Text("neopixel(bytearray("), Repr(swapped), Text("))")], swapped)
    else if rgb.Some? && pixNr.None? then
      var grb := Grb(rgb.value);
      Send([Text("neopixel(bytearray("), Repr(grb), Text("*10))")], Repeat(grb, PixelCount))
    else if rgb.Some? && pixNr.Some? then
      var p := pixNr.value;
      var spliced := PyTake(cache, p * 3) + Grb(rgb.value) + PyDrop(cache, (p + 1) * 3);
      Send([Text("neopixel(bytearray("), Repr(spliced), Text("))")], spliced)
    else
      Unchanged
  }

  /** A buffer alone is sent swapped to GRB and becomes the cache; it keeps
      its length when it holds whole triples. */
  lemma BufferPathSwaps(cache: seq<Byte>, buf: seq<Byte>)
    requires |buf| >= 3
    ensures PixelAction(cache, None, None, Some(buf)).Send?
    ensures PixelAction(cache, None, None, Some(buf)).cache == GrbSwap(buf)
    ensures |buf| % 3 == 0 ==> |PixelAction(cache, None, None, Some(buf)).cache| == |buf|
  {
  }

  /** A colour without a pixel number paints all ten pixels (g, r, b),
      whatever buffer is passed as well. */
  lemma WholeStripColour(cache: seq<Byte>, c: ByteRgb, buf: Option<seq<Byte>>)
    ensures PixelAction(cache, Some(c), None, buf).Send?
    ensures |PixelAction(cache, Some(c), None, buf).cache| == 3 * PixelCount
    ensures forall k :: 0 <= k < PixelCount ==>
      PixelAction(cache, Some(c), None, buf).cache[3 * k] == c.g &&
      PixelAction(cache, Some(c), None, buf).cache[3 * k + 1] == c.r &&
      PixelAction(cache, Some(c), None, buf).cache[3 * k + 2] == c.b
  {
    RepeatAt(Grb(c), PixelCount);
    var r := PixelAction(cache, Some(c), None, buf).cache;
    forall k | 0 <= k < PixelCount
      ensures r[3 * k] == c.g && r[3 * k + 1] == c.r && r[3 * k + 2] == c.b
    {
      assert (3 * k) % 3 == 0 && (3 * k + 1) % 3 == 1 && (3 * k + 2) % 3 == 2;
    }
  }

  /** Nothing is sent, and the cache stays, exactly when there is no colour
      and either a pixel number or no buffer of at least one triple. */
  lemma NothingSent(cache: seq<Byte>, rgb: Option<ByteRgb>, pixNr: Option<int>, buf: Option<seq<Byte>>)
    ensures PixelAction(cache, rgb, pixNr, buf).Unchanged? <==>
      rgb.None? && (pixNr.Some? || buf.None? || |buf.value| < 3)
  {
  }

  /** A colour with a pixel number 0..9 rewrites that pixel's three bytes
      to (g, r, b) and keeps every other byte and the length. */
  lemma SinglePixel(cache: seq<Byte>, c: ByteRgb, p: int, buf: Option<seq<Byte>>)
    requires |cache| == 3 * PixelCount && 0 <= p < PixelCount
    ensures PixelAction(cache, Some(c), Some(p), buf).Send?
    ensures |PixelAction(cache, Some(c), Some(p), buf).cache| == |cache|
    ensures PixelAction(cache, Some(c), Some(p), buf).cache[3 * p..3 * p + 3] == [c.g, c.r, c.b]
    ensures forall i :: 0 <= i < |cache| && !(3 * p <= i < 3 * p + 3) ==>
      PixelAction(cache, Some(c), Some(p), buf).cache[i] == cache[i]
  {
  }

  /** The example of a single-pixel write on a dark strip. */
  lemma SinglePixelExample()
    ensures PixelAction(seq(30, _ => 0), Some(Rgb(10, 20, 30)), Some(2), None).cache
      == [0, 0, 0, 0, 0, 0, 20, 10, 30] + seq(21, _ => 0)
  {
  }

  /** As written, a pixel number past the end does not fail: the slices
      leave the whole cache in front, so the triple is appended. */
  lemma SinglePixelPastEnd(cache: seq<Byte>, c: ByteRgb, p: int)
    requires |cache| == 3 * PixelCount && PixelCount <= p
    ensures PixelAction(cache, Some(c), Some(p), None).cache == cache + [c.g, c.r, c.b]
  {
  }

  class Cpx {
    const serial: Serial
    var neopixelBuf: seq<Byte>

    /** `CPX()`: the board has sent `input` so far. Sends the seven
        bootstrap lines and starts with a dark 30-byte cache. */
    constructor (input: string)
      ensures fresh(serial)
      ensures |serial.written| == |BootstrapLines|
      ensures forall i :: 0 <= i < |BootstrapLines| ==> serial.written[i] == Framed(BootstrapLines[i])
      ensures serial.pending == ""
      ensures neopixelBuf == seq(3 * PixelCount, _ => 0)
    {
      serial := new Serial(input);
      new;
      SendNoRes([Text(BootstrapLines[0])]);
      SendNoRes([Text(BootstrapLines[1])]);
      SendNoRes([Text(BootstrapLines[2])]);
      SendNoRes([Text(BootstrapLines[3])]);
      SendNoRes([Text(BootstrapLines[4])]);
      SendNoRes([Text(BootstrapLines[5])]);
      SendNoRes([Text(BootstrapLines[6])]);
      neopixelBuf := seq(3 * PixelCount, _ => 0);
    }

    /** `send_nores`: writes the line and drains the reply. */
    method SendNoRes(line: Line)
      modifies serial
      ensures serial.written == old(serial.written) + [line + [Text(Eol)]]
      ensures serial.pending == ""
    {
      serial.Write(line);
      var _ := serial.Read();
    }

    /** `send_res`: writes the line and returns the reply without its
        prompt. */
    method SendRes(line: Line) returns (reply: string)
      modifies serial
      ensures reply == Response(old(serial.pending))
      ensures serial.written == old(serial.written) + [line + [Text(Eol)]]
      ensures serial.pending == ""
    {
      serial.Write(line);
      reply := serial.Read();
    }

    /** `send_res_int`: the reply read as an integer; a reply that is not
        one is Python's `ValueError`. */
    method SendResInt(line: Line) returns (n: Result<int, ParseError>)
      modifies serial
      ensures n == ParseInt(Response(old(serial.pending)))
      ensures serial.written == old(serial.written) + [line + [Text(Eol)]]
      ensures serial.pending == ""
    {
      var reply := SendRes(line);
      n := ParseInt(reply);
    }

    /** The `light` property: the light sensor's value. */
    method Light() returns (n: Result<int, ParseError>)
      modifies serial
      ensures n == ParseInt(Response(old(serial.pending)))
      ensures serial.written == old(serial.written) + [Framed("light.value")]
      ensures serial.pending == ""
    {
      n := SendResInt([Text("light.value")]);
      assert [Text("light.value")] + [Text(Eol)] == Framed("light.value");
    }

    /** `neopixel(rgb, pix_nr, buf)`. */
    method Neopixel(rgb: Option<ByteRgb>, pixNr: Option<int>, buf: Option<seq<Byte>>)
      modifies this, serial
      ensures PixelAction(old(neopixelBuf), rgb, pixNr, buf).Unchanged? ==>
        neopixelBuf == old(neopixelBuf) && serial.written == old(serial.written) && serial.pending == old(serial.pending)
      ensures PixelAction(old(neopixelBuf), rgb, pixNr, buf).Send? ==>
        neopixelBuf == PixelAction(old(neopixelBuf), rgb, pixNr, buf).cache &&
        serial.written == old(serial.written) + [PixelAction(old(neopixelBuf), rgb, pixNr, buf).line + [Text(Eol)]] &&
        serial.pending == ""
    {
      var grbBuf: seq<Byte> := [];
      if buf.Some? && buf.value != [] {
        grbBuf := GrbSwap(buf.value);
      }
      if rgb.None? && pixNr.None? && grbBuf != [] {
        SendNoRes([Text("neopixel(bytearray("), Repr(grbBuf), Text("))")]);
        neopixelBuf := grbBuf;
      } else if rgb.Some? && pixNr.None? {
        var grb := Grb(rgb.value);
        SendNoRes([Text("neopixel(bytearray("), Repr(grb), Text("*10))")]);
        neopixelBuf := Repeat(grb, PixelCount);
      } else if rgb.Some? && pixNr.Some? {
        var grb := Grb(rgb.value);
        var p := pixNr.value;
        var spliced := PyTake(neopixelBuf, p * 3) + grb + PyDrop(neopixelBuf, (p + 1) * 3);
        SendNoRes([Text("neopixel(bytearray("), Repr(spliced), Text("))")]);
        neopixelBuf := spliced;
      }
    }
  }

  /** A light reading against a board that echoes the command, prints 42
      and shows its prompt; afterwards nothing is left to read. */
  method LightReading() returns (n: Result<int, ParseError>)
    ensures n == Ok(42)
  {
    var board := "light.value" + Eol + "42" + Eol + Prompt;
    var cpx := new Cpx("");
    cpx.serial.Receive(board);
    assert cpx.serial.pending == board;
    LightReplyExample();
    LightReplyParses();
    n := cpx.Light();
    assert n == ParseInt("42" + Eol);
    assert cpx.serial.pending == "";
  }
}
