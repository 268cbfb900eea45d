/** The lengths that splitting counts, as lengths of encoded text. */
module Encodings {
  import opened Options
  import opened Text
  import opened TelegramSplit

  /** A scalar value. */
  predicate Scalar(v: int) {
    0 <= v < 0xD800 || 0xE000 <= v < 0x110000
  }

  /** What was read of a text, and how many units it took. */
  datatype Read = Read(c: char, used: nat)

  function ReadChar(v: int, used: nat): Option<Read> {
    if Scalar(v) then Some(Read(v as char, used)) else None
  }

  /** The characters of an encoded text, by a reader of one. */
  function ReadAll(one: seq<nat> -> Option<Read>, units: seq<nat>): Option<string> {
    if units == [] then Some("")
    else
      match one(units)
      case None => None
      case Some(r) =>
        if r.used == 0 || r.used > |units| then None
        else match ReadAll(one, units[r.used..])
          case None => None
          case Some(rest) => Some([r.c] + rest)
  }

  function WriteAll(one: char -> seq<nat>, s: string): seq<nat> {
    if s == "" then [] else one(s[0]) + WriteAll(one, s[1..])
  }

  /** One character is read back, whatever follows. */
  predicate ReadsOne(write: char -> seq<nat>, read: seq<nat> -> Option<Read>, c: char, rest: seq<nat>) {
    write(c) != [] && read(write(c) + rest) == Some(Read(c, |write(c)|))
  }

  ghost predicate ReadsBack(write: char -> seq<nat>, read: seq<nat> -> Option<Read>) {
    forall c, rest: seq<nat> :: ReadsOne(write, read, c, rest)
  }

  lemma {:induction false} AllReadsBack(write: char -> seq<nat>, read: seq<nat> -> Option<Read>, s: string)
    requires ReadsBack(write, read)
    ensures ReadAll(read, WriteAll(write, s)) == Some(s)
  {
    if s != "" {
      var c, rest := s[0], WriteAll(write, s[1..]);
      AllReadsBack(write, read, s[1..]);
      assert ReadsOne(write, read, c, rest);
      assert (write(c) + rest)[|write(c)|..] == rest;
      assert [c] + s[1..] == s;
    }
  }

  // ----- UTF-16 -----

  /** Section 2.1 of RFC 2781. */
  function Utf16(c: char): seq<nat> {
    var v := c as int;
    if v < 0x10000 then [v]
    else [0xD800 + (v - 0x10000) / 0x400, 0xDC00 + (v - 0x10000) % 0x400]
  }

  /** Section 2.2 of RFC 2781. */
  function ReadUtf16(units: seq<nat>): Option<Read> {
    if units == [] then None
    else if !(0xD800 <= units[0] < 0xE000) then ReadChar(if units[0] < 0x10000 then units[0] else -1, 1)
    else if units[0] >= 0xDC00 || |units| < 2 || !(0xDC00 <= units[1] < 0xE000) then None
    else ReadChar((units[0] - 0xD800) * 0x400 + (units[1] - 0xDC00) + 0x10000, 2)
  }

  lemma Utf16ReadsBack(c: char, rest: seq<nat>)
    ensures ReadUtf16(Utf16(c) + rest) == Some(Read(c, |Utf16(c)|)) && |Utf16(c)| == Units(c)
  {
    var w := c as int - 0x10000;
    assert w >= 0 ==> w / 0x400 * 0x400 + w % 0x400 == w && w / 0x400 < 0x400;
  }

  lemma Utf16ReadsOne(c: char, rest: seq<nat>)
    ensures ReadsOne(Utf16, ReadUtf16, c, rest)
  {
    Utf16ReadsBack(c, rest);
  }

  lemma {:induction false} Utf16Length(s: string)
    ensures |WriteAll(Utf16, s)| == Utf16Len(s)
  {
    if s != "" {
      Utf16Length(s[1..]);
      Utf16ReadsBack(s[0], []);
      assert s == [s[0]] + s[1..] && [s[0]][..0] == "";
      Utf16Append([s[0]], s[1..]);
    }
  }

  /** `Utf16Len` is the number of units of a text in UTF-16, which read back as the text. */
  lemma Utf16LenIs(s: string)
    ensures |WriteAll(Utf16, s)| == Utf16Len(s) && ReadAll(ReadUtf16, WriteAll(Utf16, s)) == Some(s)
  {
    Utf16Length(s);
    forall c, rest: seq<nat> ensures ReadsOne(Utf16, ReadUtf16, c, rest) {
      Utf16ReadsOne(c, rest);
    }
    AllReadsBack(Utf16, ReadUtf16, s);
  }

  // ----- UTF-8 -----

  /** Section 3 of RFC 3629. */
  function Utf8(c: char): seq<nat> {
    var v := c as int;
    if v < 0x80 then [v]
    else if v < 0x800 then [0xC0 + v / 0x40, 0x80 + v % 0x40]
    else if v < 0x10000 then [0xE0 + v / 0x1000, 0x80 + v / 0x40 % 0x40, 0x80 + v % 0x40]
    else [0xF0 + v / 0x40000, 0x80 + v / 0x1000 % 0x40, 0x80 + v / 0x40 % 0x40, 0x80 + v % 0x40]
  }

  predicate Continues(octets: seq<nat>, n: nat) {
    n <= |octets| && forall i :: 1 <= i < n ==> 0x80 <= octets[i] < 0xC0
  }

  /** Section 3 of RFC 3629; a character in more octets than it needs is refused. */
  function ReadUtf8(octets: seq<nat>): Option<Read> {
    if octets == [] then None
    else if octets[0] < 0x80 then ReadChar(octets[0], 1)
    else if 0xC0 <= octets[0] < 0xE0 && Continues(octets, 2) then
      Needed(0x80, (octets[0] - 0xC0) * 0x40 + (octets[1] - 0x80), 2)
    else if 0xE0 <= octets[0] < 0xF0 && Continues(octets, 3) then
      Needed(0x800, (octets[0] - 0xE0) * 0x1000 + (octets[1] - 0x80) * 0x40 + (octets[2] - 0x80), 3)
    else if 0xF0 <= octets[0] < 0xF8 && Continues(octets, 4) then
      Needed(0x10000, (octets[0] - 0xF0) * 0x40000 + (octets[1] - 0x80) * 0x1000
                      + (octets[2] - 0x80) * 0x40 + (octets[3] - 0x80), 4)
    else None
  }

  function Needed(least: int, v: int, used: nat): Option<Read> {
    if v < least then None else ReadChar(v, used)
  }

  lemma Utf8ReadsBack(c: char, rest: seq<nat>)
    ensures ReadUtf8(Utf8(c) + rest) == Some(Read(c, |Utf8(c)|)) && |Utf8(c)| == Bytes(c)
  {
    var v := c as int;
    assert v == v / 0x40 * 0x40 + v % 0x40;
    assert v / 0x40 == v / 0x1000 * 0x40 + v / 0x40 % 0x40;
    assert v / 0x1000 == v / 0x40000 * 0x40 + v / 0x1000 % 0x40;
    var octets := Utf8(c) + rest;
    assert forall i :: 0 <= i < |Utf8(c)| ==> octets[i] == Utf8(c)[i];
  }

  lemma Utf8ReadsOne(c: char, rest: seq<nat>)
    ensures ReadsOne(Utf8, ReadUtf8, c, rest)
  {
    Utf8ReadsBack(c, rest);
  }

  lemma {:induction false} Utf8Length(s: string)
    ensures |WriteAll(Utf8, s)| == ByteLen(s)
  {
    if s != "" {
      Utf8Length(s[1..]);
      Utf8ReadsBack(s[0], []);
      assert s == [s[0]] + s[1..] && [s[0]][..0] == "";
      ByteAppend([s[0]], s[1..]);
    }
  }

  /** `ByteLen` is the number of octets of a text in UTF-8, which read back as the text. */
  lemma ByteLenIs(s: string)
    ensures |WriteAll(Utf8, s)| == ByteLen(s) && ReadAll(ReadUtf8, WriteAll(Utf8, s)) == Some(s)
  {
    Utf8Length(s);
    forall c, rest: seq<nat> ensures ReadsOne(Utf8, ReadUtf8, c, rest) {
      Utf8ReadsOne(c, rest);
    }
    AllReadsBack(Utf8, ReadUtf8, s);
  }
}
