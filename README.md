# Circuit Playground Express REPL driver — Dafny model

This project models the host-side driver for a Circuit Playground Express
board that is controlled through its interactive Python prompt (the REPL)
over a serial line. It also proves properties of that model. The model has
three parts.

- **Colour encoding** (`strip.dfy`, module `Strip`; `demo_strip.dfy`, module
  `DemoStrip`). These turn a 0–255 level into the 30-byte buffer for the ten
  NeoPixels. `Strip` models `thingflow/cpx_driver.py`: a three-segment
  colour wheel, a "lit prefix" of pixels and a first-pixel floor
  correction. `DemoStrip` models `cpx_demo/cpx_driver.py`: a two-segment
  wheel, a per-pixel VU-meter brightness and a fixed colour ramp. The
  `clamp` helper, the RGB type and the flattening of triples into bytes are
  shared in `common.dfy` (module `Common`).
- **REPL line protocol** (`serial.dfy`, module `Repl`). The serial port is
  an object with two fields. `pending` is the text the board has sent and
  the host has not read yet. `written` is one entry per `write` call.
  `Serial.write` appends CR LF and discards the echoed line. `Serial.read`
  drains everything pending and drops one trailing `">>> "` prompt. The
  reply of `send_res_int` is parsed the way Python's `int()` parses it.
- **Board controller** (`cpx.dfy`, module `Driver`). The `CPX` class sends
  its seven bootstrap lines, reads the light sensor and drives the pixels.
  It keeps the last buffer it sent in `neopixelBuf`. The pure function
  `PixelAction` decides what `neopixel(rgb, pix_nr, buf)` sends and what
  it caches, and the method `Cpx.Neopixel` is proved against it.

`Serial` and `CPX` behave the same in both source files. Their docstrings
differ, the class attribute is named `neopixel_count` in one and
`pixel_count` in the other, and the demo copy adds a `dev_file` class
attribute as the default device path. They are modelled once, and the rows below cite the demo copy
(`thingflow/cpx_driver.py:16-97` is the other copy).

Floats are written in exact integer form. The step 255/10 = 25.5 becomes
51/2. `max_brightness = 0.05` becomes 1/20. A brightness is passed in
units of 1/255, so `level / 255` is passed as `level`. One encoded channel
is therefore `c * b / 5100`, rounded down. Python's binary floats can land
just below an integer where the exact product is a multiple of 5100. The
model is the exact reading.

Lines of text sent to the board are sequences of `Chunk`s. Python's
printed form of a tuple or list of bytes is the abstract chunk `Repr(bytes)`.
Everything else, such as `"neopixel(bytearray("` or `"*10))"`, is literal
text.

Points where the code's behaviour is worth knowing:
- The thingflow `wheel(85)` is `(255, 0, 0)`: red peaks at the first
  boundary, and green is full only at 170.
- `neopixel` accepts a buffer of any length. An incomplete last triple is
  dropped by the swap.
- A single-pixel write with a pixel number outside 0..9 does not fail.
  Python's slices make it grow or rebuild the cache
  (`Driver.SinglePixelPastEnd`).

## Model

| member | source | states |
|---|---|---|
| `Common.Clamp` | micropython_iot/thingflow/cpx_driver.py:100-105 | The result is the median of (min, n, max): one of the three, with at least two arguments on each side of it. When min <= max it lies in [min, max], is n when n is in range and the nearest bound otherwise. The demo's nested copy (cpx_demo/cpx_driver.py:109-114) is the same function. |
| `Common.Flatten` | micropython_iot/thingflow/cpx_driver.py:139 | `sum(triples, ())` has 3 bytes per triple, and byte i is channel i mod 3 of triple i div 3. |
| `Common.Dim` | micropython_iot/thingflow/cpx_driver.py:131 | `int(c * b/255 * 0.05)` for a channel and a brightness in 0..255 lies in 0..12 and is the exact product c*b/5100 rounded down. |
| `Strip.Wheel` | micropython_iot/thingflow/cpx_driver.py:116-123 | For 0 <= level <= 255 every channel lies in [0, 255] and at least one channel is 0. |
| `Strip.WheelBoundaryValues` | micropython_iot/thingflow/cpx_driver.py:116-123 | 0→(0,0,0), 84→(252,0,0), 85→(255,0,0), 169→(3,252,0), 170→(0,255,0), 255→(0,0,255). |
| `Strip.WheelIsContinuous` | micropython_iot/thingflow/cpx_driver.py:116-123 | One step of the level moves each channel by at most 3, across the segment boundaries too. |
| `Strip.LevelToRgb` | micropython_iot/thingflow/cpx_driver.py:126-132 | Every channel lies in 0..12 = floor(255 * 0.05). Brightness <= 0 or level <= 0 gives (0,0,0). |
| `Strip.LevelToRgbClampsInputs` | micropython_iot/thingflow/cpx_driver.py:129-130 | Level is clamped to [0,255] and brightness to [0,1] inside: any input encodes like its clamped value. |
| `Strip.LevelToRgbAtFullBrightness` | micropython_iot/thingflow/cpx_driver.py:126-131 | At the default brightness 1 each channel is the wheel channel times 0.05, rounded down. |
| `Strip.LevelsLitPrefix` | micropython_iot/thingflow/cpx_driver.py:137-138 | The `levels` list has 10 entries in 0..255. Entry i is non-zero exactly when i < LitCount(level), an independently defined count (ceil(level/25.5), capped at 10), so the lit entries form a prefix. |
| `Strip.Levels` | micropython_iot/thingflow/cpx_driver.py:137-138 | The `levels` list has one entry per pixel (10), each a colour level in 0..255. |
| `Strip.LitCountMonotone` | micropython_iot/thingflow/cpx_driver.py:137-138 | The length of the lit prefix never decreases as the level grows. |
| `Strip.VumeterRaw` | micropython_iot/thingflow/cpx_driver.py:139 | The concatenated encodings of the ten levels form 30 bytes, each at most 12. |
| `Strip.VumeterBytes` | micropython_iot/thingflow/cpx_driver.py:135-142 | The buffer `vumeter` returns has 30 bytes, and for level > 18 its first byte is at least 1. |
| `Strip.Vumeter` | micropython_iot/thingflow/cpx_driver.py:135-142 | The method returns a fresh 30-byte array equal to the raw buffer with byte 0 set to 1 in place when it is 0 and level > 18. |
| `Strip.VumeterBounds` | micropython_iot/thingflow/cpx_driver.py:137-141 | `vumeter` always returns exactly 30 bytes, each at most 12. |
| `Strip.VumeterOffAtZero` | micropython_iot/thingflow/cpx_driver.py:138-139 | For level <= 0 every byte is 0. |
| `Strip.VumeterFloorCorrection` | micropython_iot/thingflow/cpx_driver.py:140-141 | For level > 18 byte 0 is at least 1. Bytes 1..29 are the raw ones. Byte 0 differs from the raw byte only when the raw byte was 0, and then it is 1. |
| `Strip.VumeterCorrectionRange` | micropython_iot/thingflow/cpx_driver.py:137-141 | The raw first byte is 0 exactly for level < 68, so the correction changes the buffer exactly for levels 19..67. |
| `DemoStrip.Wheel` | micropython_iot/thingflow/cpx_demo/cpx_driver.py:116-136 | For every integer input each channel lies in [0, 255] and the three channels sum to 255. |
| `DemoStrip.WheelDocValues` | micropython_iot/thingflow/cpx_demo/cpx_driver.py:117-129 | The doc-comment values hold: 0→(255,0,0), 127→(1,254,0), 128→(0,255,0), 255→(0,1,254), 256→(0,0,255). Inputs below 0 or above 256 map like 0 and 256. |
| `DemoStrip.LevelToRgb` | micropython_iot/thingflow/cpx_demo/cpx_driver.py:138-143 | Every channel lies in 0..12. Brightness <= 0 gives (0,0,0). |
| `DemoStrip.Brightness` | micropython_iot/thingflow/cpx_demo/cpx_driver.py:145-161 | `vumeter_brightness` gives 10 byte-sized brightnesses that never rise from one pixel to the next. |
| `DemoStrip.BrightnessShape` | micropython_iot/thingflow/cpx_demo/cpx_driver.py:158-161 | `vumeter_brightness` has 10 entries: FullCount(level) = floor(level/25.5) 255s, then one partial value 5·((2·level) mod 51) (a multiple of 5 in 0..250; 0 for a negative level), then 0s. |
| `DemoStrip.BrightnessDocValues` | micropython_iot/thingflow/cpx_demo/cpx_driver.py:146-156 | The doc examples hold for 0, 1, 25, 26 and 255. |
| `DemoStrip.Colors` | micropython_iot/thingflow/cpx_demo/cpx_driver.py:163 | `colors` has one entry per pixel, each a wheel level in 0..255. |
| `DemoStrip.ColorsValues` | micropython_iot/thingflow/cpx_demo/cpx_driver.py:163 | `colors` is [0,25,51,76,102,128,153,179,204,230], strictly increasing and below 256. |
| `DemoStrip.Vumeter` | micropython_iot/thingflow/cpx_demo/cpx_driver.py:163-166 | With default arguments the buffer has 30 bytes, each at most 12. |
| `DemoStrip.VumeterOffAtZero` | micropython_iot/thingflow/cpx_demo/cpx_driver.py:164-166 | For level <= 0 every byte is 0. |
| `Repl.StripPrompt` | micropython_iot/thingflow/cpx_demo/cpx_driver.py:28-32 | If the drained text ends with `">>> "`, the result plus that prompt is the text. Otherwise the text comes back unchanged, including a reply cut off before its prompt. |
| `Repl.StripPromptAppended` | micropython_iot/thingflow/cpx_demo/cpx_driver.py:30-31 | Exactly one prompt is removed, even from a reply that itself ends with one. |
| `Repl.ReadLineSplit` | micropython_iot/thingflow/cpx_demo/cpx_driver.py:37 | `readline` splits the input into a line and the rest that concatenate back to it. The line ends with the first newline and holds no other. Without a newline the whole input is read. |
| `Repl.ReadLineSkipsEcho` | micropython_iot/thingflow/cpx_demo/cpx_driver.py:34-37 | The echo of a written line (no newline inside) followed by CR LF is discarded exactly, whatever follows. |
| `Repl.Response` | micropython_iot/thingflow/cpx_demo/cpx_driver.py:70-72 | The reply `send_res` returns is never longer than the pending input, and is empty when the board has not ended the echoed line. |
| `Repl.ResponseRoundTrip` | micropython_iot/thingflow/cpx_demo/cpx_driver.py:70-72 | When the board echoes the line, prints a reply and shows the prompt, `send_res` returns exactly that reply. |
| `Repl.TrimEnd` | micropython_iot/thingflow/cpx_demo/cpx_driver.py:75 | `int()` ignores trailing whitespace: the result is a prefix of the text, what it drops is all whitespace, and it does not end with whitespace. |
| `Repl.TrimStart` | micropython_iot/thingflow/cpx_demo/cpx_driver.py:75 | `int()` ignores leading whitespace: the result is a suffix of the text, what it drops is all whitespace, and it does not start with whitespace. |
| `Repl.ParseInt` | micropython_iot/thingflow/cpx_demo/cpx_driver.py:74-75 | `int()` of the reply succeeds with n exactly when the text without surrounding whitespace is an optional sign followed by at least one digit that reads as n. Otherwise it is an error (Python's `ValueError`) that carries the text. |
| `Repl.ParseIntRejectsForeign` | micropython_iot/thingflow/cpx_demo/cpx_driver.py:74-75 | A reply holding any character that is not whitespace, a digit or a sign makes `int()` fail. |
| `Repl.TracebackIsError` | micropython_iot/thingflow/cpx_demo/cpx_driver.py:74-75 | A Python traceback printed in place of a value makes `send_res_int` fail instead of returning a number. |
| `Repl.DigitsValueOfNatToString` | micropython_iot/thingflow/cpx_demo/cpx_driver.py:75 | The decimal digits of a number read back as that number. |
| `Repl.ParseIntRoundTrip` | micropython_iot/thingflow/cpx_demo/cpx_driver.py:74-75 | Any integer printed in decimal and followed by whitespace (the board's CR LF) parses back to the same integer. |
| `Repl.LightReplyExample` | micropython_iot/thingflow/cpx_demo/cpx_driver.py:77-80 | Pending input `light.value`, CR LF, `42`, CR LF, `>>> ` gives the reply `42` followed by CR LF. |
| `Repl.LightReplyParses` | micropython_iot/thingflow/cpx_demo/cpx_driver.py:74-80 | The reply `42` followed by CR LF parses to 42. |
| `Repl.Serial.constructor` | micropython_iot/thingflow/cpx_demo/cpx_driver.py:23-26 | A new port has the board's text pending and nothing written. |
| `Repl.Serial.ReadAll` | micropython_iot/thingflow/cpx_demo/cpx_driver.py:29 | `readall` returns all pending text and clears it. |
| `Repl.Serial.ReadLine` | micropython_iot/thingflow/cpx_demo/cpx_driver.py:37 | `readline` consumes exactly `ReadLineSplit`'s line from the pending text. |
| `Repl.Serial.Read` | micropython_iot/thingflow/cpx_demo/cpx_driver.py:28-32 | `read` returns the drained text without its trailing prompt and leaves nothing pending. The log is unchanged. |
| `Repl.Serial.Write` | micropython_iot/thingflow/cpx_demo/cpx_driver.py:34-37 | `write` logs the line followed by CR LF and consumes pending input through the first newline (the echo). |
| `Driver.PyTake` | micropython_iot/thingflow/cpx_demo/cpx_driver.py:100 | `buf[:k]` is the usual prefix for 0 <= k <= len and the whole buffer past the end. |
| `Driver.PyDrop` | micropython_iot/thingflow/cpx_demo/cpx_driver.py:100 | `buf[k:]` is the usual suffix for 0 <= k <= len and empty past the end. |
| `Driver.GrbSwap` | micropython_iot/thingflow/cpx_demo/cpx_driver.py:86-88 | The swapped buffer holds every complete triple with its first two bytes exchanged. Byte i is input byte SwapPartner(i), and an incomplete last triple is dropped. |
| `Driver.GrbSwapInvolution` | micropython_iot/thingflow/cpx_demo/cpx_driver.py:86-88 | For a length that is a multiple of 3 the length is kept, and swapping twice gives back the input. |
| `Driver.Repeat` | micropython_iot/thingflow/cpx_demo/cpx_driver.py:96 | `rgb * 10` has ten times the triple's length. |
| `Driver.RepeatAt` | micropython_iot/thingflow/cpx_demo/cpx_driver.py:96 | In `rgb * 10`, byte i is element i mod 3 of the triple. |
| `Driver.PixelAction` | micropython_iot/thingflow/cpx_demo/cpx_driver.py:86-102 | A colour always sends a line. Every line sent is `neopixel(bytearray(...))` around one byte list. A buffer alone caches its GRB swap. A whole-strip colour caches ten copies of the sent triple. In every other case the cache is exactly the bytes sent. |
| `Driver.BufferPathSwaps` | micropython_iot/thingflow/cpx_demo/cpx_driver.py:86-91 | A buffer of at least one triple, given alone, is sent and cached in GRB order. Its length is kept when it is whole triples. |
| `Driver.WholeStripColour` | micropython_iot/thingflow/cpx_demo/cpx_driver.py:92-96 | A colour without a pixel number caches (g, r, b) for all ten pixels (30 bytes), even when a buffer is also given. |
| `Driver.NothingSent` | micropython_iot/thingflow/cpx_demo/cpx_driver.py:86-102 | Nothing is sent and the cache is unchanged if and only if there is no colour and either a pixel number or no buffer of at least 3 bytes. |
| `Driver.SinglePixel` | micropython_iot/thingflow/cpx_demo/cpx_driver.py:97-102 | For a 30-byte cache and pixel 0..9, bytes 3p..3p+2 become (g, r, b). Every other byte and the length are unchanged. |
| `Driver.SinglePixelExample` | micropython_iot/thingflow/cpx_demo/cpx_driver.py:97-102 | From all zeros, (10,20,30) at pixel 2 gives bytes 6–8 = 20,10,30 and zeros elsewhere. |
| `Driver.SinglePixelPastEnd` | micropython_iot/thingflow/cpx_demo/cpx_driver.py:100 | As written, a pixel number of 10 or more appends the triple to the cache (33 bytes) instead of failing. |
| `Driver.Cpx.constructor` | micropython_iot/thingflow/cpx_demo/cpx_driver.py:51-64 | Exactly seven lines are written, in order, the first being the empty line. Nothing is left pending, and the cache is 30 zero bytes. |
| `Driver.Cpx.SendNoRes` | micropython_iot/thingflow/cpx_demo/cpx_driver.py:66-68 | One line is logged and all pending input is consumed. |
| `Driver.Cpx.SendRes` | micropython_iot/thingflow/cpx_demo/cpx_driver.py:70-72 | Returns the pending input after the echoed line, minus the prompt. One line is logged. |
| `Driver.Cpx.SendResInt` | micropython_iot/thingflow/cpx_demo/cpx_driver.py:74-75 | Returns `int()` of that reply, or a parse error where Python raises `ValueError`. |
| `Driver.Cpx.Light` | micropython_iot/thingflow/cpx_demo/cpx_driver.py:77-80 | Sends `light.value` and returns the parsed reply. |
| `Driver.Cpx.Neopixel` | micropython_iot/thingflow/cpx_demo/cpx_driver.py:82-102 | The cache and the log change exactly as `PixelAction` decides. When it sends nothing, the cache, the log and the pending input are unchanged. |
| `Driver.LightReading` | micropython_iot/thingflow/cpx_demo/cpx_driver.py:77-80 | After bootstrapping, a board that echoes `light.value`, prints 42 and shows its prompt yields 42. |

## Left out

- Opening the port is not modelled: the device path, baud rate 115200, RTS/CTS flow control and the 0.01 s timeout, and the `SerialException` raised at open. The model's port starts from the text the board has sent.
- The idle timing of `readall` is not modelled: it returns and clears all pending input. `Serial.Receive` stands for the board's output arriving. `pending` holds what the board sends before the host's next read, so replies are in place before the command that prompts them.
- `decode()` of the received bytes is not modelled: text is a sequence of characters.
- `Serial.flush` is never called, and its prompt check does nothing, so it is not modelled.
- The board's own behaviour is not modelled: what CircuitPython does with the commands, and the sensor values it prints.
- Python's printed form of byte tuples and lists inside commands is the abstract chunk `Repr`.
- `Repl.ParseInt` does not cover all of Python's `int()`. It accepts only surrounding ASCII whitespace, an optional sign and decimal digits. Underscores, non-ASCII digits and Unicode whitespace are reported as errors although Python accepts them.
- Floating-point rounding of 0.05, 25.5 and `level/255` is not modelled: the model uses the exact integer forms.
- Strip.LevelToRgb: brightness is taken in steps of 1/255, because every caller in the core passes `level / 255` or the default 1. Other real brightness values are not modelled.
- DemoStrip.LevelToRgb: brightness is taken in steps of 1/255 for the same reason (`b / 255` with integer b).
- DemoStrip.Vumeter: only the default arguments `pixel_count = 10` and `bright_coef = 0.05` are modelled.
- Driver.Cpx.Neopixel: `rgb` is a triple of bytes and `buf` a sequence of bytes. Tuples of another length are not modelled. Neither are channels or `buf` elements outside 0..255: for those, `bytearray` raises `ValueError` after the command has been sent, and the cache is not updated (`cpx_demo/cpx_driver.py:91`, `:96`, `:102`).
- Driver.PixelAction: takes `rgb` and `buf` as bytes for the same reason.
- The commented-out older wheel in the docstring of `thingflow/cpx_driver.py:109-114` is not modelled.
- `thingflow/iot.py` is not part of this model: it holds scheduler and MQTT wiring on classes that are not shown.
- `thingflow/cpx_demo/cpx_transducer.py` is not part of this model: it holds a global singleton and thin wrappers.
- `thingflow/cpx_demo/server_cpx.py` is not part of this model: it holds MQTT/JSON wiring.
