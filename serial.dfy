/** The host side of the REPL line protocol: the `Serial` wrapper around the
    serial port, and the text functions it relies on (the trailing prompt,
    the echoed line, Python's `int()` on the reply).

    The port is an object with two pieces of state: the text the board has
    sent and the host has not read yet, and the log of everything the host
    has written. Reading "until the line is idle" becomes reading everything
    pending. */
module Repl {
  import opened Common

  /** The REPL's idle prompt. */
  const Prompt: string := ">>> "

  /** The line terminator `write` appends. */
  const Eol: string := "\r\n"

  /** A piece of a line of Python source sent to the board. Python's printed
      form of a tuple or list of byte values is kept abstract as `Repr`. */
  datatype Chunk = Text(s: string) | Repr(items: seq<Byte>)

  type Line = seq<Chunk>

  predicate EndsWithPrompt(data: string) {
    |data| >= |Prompt| && data[|data| - |Prompt|..] == Prompt
  }

  /** What `Serial.read` returns for the drained text: one trailing prompt
      removed when there is one, the text unchanged otherwise (a reply cut
      off by the timeout comes back as it is). */
  function StripPrompt(data: string): (r: string)
    ensures EndsWithPrompt(data) ==> r + Prompt == data
    ensures !EndsWithPrompt(data) ==> r == data
  {
    if EndsWithPrompt(data) then data[..|data| - |Prompt|] else data
  }

  /** Exactly one prompt is removed, even when the reply itself ends with
      another one. */
  lemma StripPromptAppended(reply: string)
    ensures StripPrompt(reply + Prompt) == reply
  {
  }

  /** `readline()`: the text up to and including the first newline, and what
      follows it; without a newline the read times out with everything. */
  function ReadLineSplit(s: string): (p: (string, string))
    ensures p.0 + p.1 == s
    ensures '\n' !in s ==> p.0 == s && p.1 == ""
    ensures '\n' in s ==> |p.0| > 0 && p.0[|p.0| - 1] == '\n' && '\n' !in p.0[..|p.0| - 1]
  {
    if s == [] then ("", "")
    else if s[0] == '\n' then ("\n", s[1..])
    else
      var (line, rest) := ReadLineSplit(s[1..]);
      assert s == [s[0]] + s[1..];
      assert '\n' in s[1..] ==> ([s[0]] + line)[..|line|] == [s[0]] + line[..|line| - 1];
      ([s[0]] + line, rest)
  }

  /** The echo of a line the host wrote is discarded exactly, whatever
      follows it. */
  lemma {:induction false} ReadLineSkipsEcho(echo: string, rest: string)
    requires '\n' !in echo
    ensures ReadLineSplit(echo + Eol + rest) == (echo + Eol, rest)
  {
    if echo == [] {
      assert Eol + rest == ['\r'] + (['\n'] + rest);
      assert ReadLineSplit(['\n'] + rest) == ("\n", rest);
    } else {
      ReadLineSkipsEcho(echo[1..], rest);
      assert echo + Eol + rest == [echo[0]] + (echo[1..] + Eol + rest);
      assert echo + Eol == [echo[0]] + (echo[1..] + Eol);
    }
  }

  /** The text `send_res` returns when `pending` is what the board sends
      back: the echoed line is dropped, then the prompt. */
  function Response(pending: string): (r: string)
    ensures |r| <= |pending|
    ensures '\n' !in pending ==> r == ""
  {
    StripPrompt(ReadLineSplit(pending).1)
  }

  /** A board that echoes the line, prints its reply and shows the prompt
      has that reply returned unchanged. */
  lemma ResponseRoundTrip(echo: string, reply: string)
    requires '\n' !in echo
    ensures Response(echo + Eol + reply + Prompt) == reply
  {
    assert echo + Eol + reply + Prompt == echo + Eol + (reply + Prompt);
    ReadLineSkipsEcho(echo, reply + Prompt);
    StripPromptAppended(reply);
  }

  // ---------------------------------------------------------------- int()

  datatype ParseError = NotAnInteger(text: string)

  predicate IsSpace(c: char) {
    c == ' ' || c == '\t' || c == '\n' || c == '\r' || c as int == 11 || c as int == 12
  }

  predicate IsDigit(c: char) { '0' <= c <= '9' }

  predicate AllDigits(s: string) { forall i :: 0 <= i < |s| ==> IsDigit(s[i]) }

  predicate AllSpaces(s: string) { forall i :: 0 <= i < |s| ==> IsSpace(s[i]) }

  /** `s` without its leading whitespace: a suffix of `s` whose dropped
      front is all whitespace and which does not start with whitespace. */
  function TrimStart(s: string): (r: string)
    ensures |r| <= |s| && r == s[|s| - |r|..]
    ensures AllSpaces(s[..|s| - |r|])
    ensures r == [] || !IsSpace(r[0])
  {
    if s != [] && IsSpace(s[0]) then
      var r := TrimStart(s[1..]);
      assert s[..|s| - |r|] == [s[0]] + s[1..][..|s[1..]| - |r|];
      r
    else s
  }

  /** `s` without its trailing whitespace: a prefix of `s` whose dropped
      end is all whitespace and which does not end with whitespace. */
  function TrimEnd(s: string): (r: string)
    ensures |r| <= |s| && r == s[..|r|]
    ensures AllSpaces(s[|r|..])
    ensures r == [] || !IsSpace(r[|r| - 1])
  {
    if s != [] && IsSpace(s[|s| - 1]) then
      var r := TrimEnd(s[..|s| - 1]);
      assert s[|r|..] == s[..|s| - 1][|r|..] + [s[|s| - 1]];
      r
    else s
  }

  /** The value of a string of decimal digits. */
  function DigitsValue(s: string): nat
    requires AllDigits(s)
  {
    if s == [] then 0
    else DigitsValue(s[..|s| - 1]) * 10 + (s[|s| - 1] as int - '0' as int)
  }

  /** `t` is an optional sign followed by at least one decimal digit, and
      reads as the integer n. */
  predicate Denotes(t: string, n: int) {
    (t != [] && AllDigits(t) && DigitsValue(t) == n) ||
    (|t| > 1 && t[0] == '+' && AllDigits(t[1..]) && DigitsValue(t[1..]) == n) ||
    (|t| > 1 && t[0] == '-' && AllDigits(t[1..]) && DigitsValue(t[1..]) == -n)
  }

  /** A text denotes at most one integer. */
  lemma DenotesUnique(t: string, a: int, b: int)
    requires Denotes(t, a) && Denotes(t, b)
    ensures a == b
  {
  }

  /** `int(text)` for the forms the reply takes: surrounding whitespace, an
      optional sign and at least one decimal digit. Anything else is the
      `ValueError` Python raises. */
  function ParseInt(text: string): (r: Result<int, ParseError>)
    ensures r.Ok? ==> Denotes(TrimStart(TrimEnd(text)), r.value)
    ensures r.Err? ==> r.error == NotAnInteger(text)
    ensures r.Err? ==> forall n :: !Denotes(TrimStart(TrimEnd(text)), n)
  {
    var t := TrimStart(TrimEnd(text));
    var negative := t != [] && t[0] == '-';
    var digits := if t != [] && (t[0] == '+' || t[0] == '-') then t[1..] else t;
    if digits == [] || !AllDigits(digits) then Err(NotAnInteger(text))
    else
      var magnitude: int := DigitsValue(digits);
      Ok(if negative then -magnitude else magnitude)
  }

  /** The decimal digits of a natural number, as the board prints it. */
  function NatToString(n: nat): (s: string)
    ensures s != [] && AllDigits(s)
  {
    var d := ['0' + (n % 10) as char];
    if n < 10 then d else NatToString(n / 10) + d
  }

  /** `repr` of an integer. */
  function IntToString(n: int): string
  {
    if n < 0 then "-" + NatToString(-n) else NatToString(n)
  }

  lemma {:induction false} DigitsValueOfNatToString(n: nat)
    ensures DigitsValue(NatToString(n)) == n
  {
    if n >= 10 {
      DigitsValueOfNatToString(n / 10);
      var s := NatToString(n);
      assert s[..|s| - 1] == NatToString(n / 10);
    }
  }

  lemma {:induction false} TrimEndSpaces(a: string, w: string)
    requires a != [] && !IsSpace(a[|a| - 1]) && AllSpaces(w)
    ensures TrimEnd(a + w) == a
  {
    if w != [] {
      assert (a + w)[..|a + w| - 1] == a + w[..|w| - 1];
      TrimEndSpaces(a, w[..|w| - 1]);
    }
  }

  /** A printed integer followed by the board's line end parses back to the
      integer. */
  lemma ParseIntRoundTrip(n: int, w: string)
    requires AllSpaces(w)
    ensures ParseInt(IntToString(n) + w) == Ok(n)
  {
    var s := IntToString(n);
    var m := if n < 0 then -n else n;
    DigitsValueOfNatToString(m);
    assert s[|s| - 1] == NatToString(m)[|NatToString(m)| - 1];
    TrimEndSpaces(s, w);
    assert TrimStart(s) == s by { assert !IsSpace(s[0]); }
    assert Denotes(s, n) by {
      if n < 0 { assert s[1..] == NatToString(m); }
    }
    var r := ParseInt(s + w);
    if r.Ok? {
      DenotesUnique(s, r.value, n);
    }
  }

  /** A character that is neither whitespace, a digit nor a sign anywhere
      in the text makes `int()` raise `ValueError`. */
  lemma ParseIntRejectsForeign(text: string, k: int)
    requires 0 <= k < |text|
    requires !IsSpace(text[k]) && !IsDigit(text[k]) && text[k] != '+' && text[k] != '-'
    ensures ParseInt(text).Err?
  {
    var e := TrimEnd(text);
    assert k < |e|;
    var t := TrimStart(e);
    var j := k - (|e| - |t|);
    assert 0 <= j;
    assert t[j] == text[k];
    if j > 0 {
      assert t[1..][j - 1] == text[k];
    }
  }

  /** A Python error reported instead of a value is not an integer. */
  lemma TracebackIsError()
    ensures ParseInt("Traceback (most recent call last):\r\n").Err?
  {
    ParseIntRejectsForeign("Traceback (most recent call last):\r\n", 0);
  }

  /** The example of a light reading: the board echoes `light.value`, prints
      42 and shows the prompt. */
  lemma LightReplyExample()
    ensures Response("light.value" + Eol + "42" + Eol + Prompt) == "42" + Eol
  {
    ResponseRoundTrip("light.value", "42" + Eol);
    assert "light.value" + Eol + "42" + Eol + Prompt == "light.value" + Eol + ("42" + Eol) + Prompt;
  }

  /** The light reading's reply parses to 42. */
  lemma LightReplyParses()
    ensures ParseInt("42" + Eol) == Ok(42)
  {
    assert IntToString(42) == "42";
    assert AllSpaces(Eol);
    ParseIntRoundTrip(42, Eol);
  }

  // --------------------------------------------------------------- Serial

  /** `Serial`: the port and the prompt. `pending` is what the board has
      sent, or sends in reply before the host reads again, and the host
      has not read yet; `written` holds the bytes of each `write` call. */
  class Serial {
    var pending: string
    var written: seq<Line>

    /** Opening the device is not modelled; `input` is what the board has
        sent before the first read. */
    constructor (input: string)
      ensures pending == input && written == []
    {
      pending := input;
      written := [];
    }

    /** The board sends `text`. */
    method Receive(text: string)
      modifies this
      ensures pending == old(pending) + text && written == old(written)
    {
      pending := pending + text;
    }

    /** pyserial's `readall()` with the idle timeout: all pending text. */
    method ReadAll() returns (data: string)
      modifies this
      ensures data == old(pending) && pending == "" && written == old(written)
    {
      data := pending;
      pending := "";
    }

    /** pyserial's `readline()`. */
    method ReadLine() returns (line: string)
      modifies this
      ensures line + pending == old(pending)
      ensures (line, pending) == ReadLineSplit(old(pending)) && written == old(written)
    {
      line := ReadLineSplit(pending).0;
      pending := ReadLineSplit(pending).1;
    }

    /** `Serial.read`: drains the port and drops a trailing prompt. */
    method Read() returns (data: string)
      modifies this
      ensures data == StripPrompt(old(pending)) && pending == "" && written == old(written)
    {
      data := ReadAll();
      if EndsWithPrompt(data) {
        data := data[..|data| - |Prompt|];
      }
    }

    /** `Serial.write`: sends the line with CR LF and discards the echoed
        line. */
    method Write(data: Line)
      modifies this
      ensures written == old(written) + [data + [Text(Eol)]]
      ensures pending == ReadLineSplit(old(pending)).1
    {
      written := written + [data + [Text(Eol)]];
      var echo := ReadLine();
    }
  }
}
