/** UTF-8 validation as `String::from_utf8` performs it, with the error
    value (`valid_up_to`, `error_len`) and its `Display` text, and the
    encoding that a Rust `String` stores. */
module Utf8 {
  import opened Wrappers
  import Text

  type Byte = b: int | 0 <= b < 256

  /** `Utf8Error`: where the valid prefix ends, and how many bytes form the
      bad sequence (`None` when the input ends in the middle of a
      sequence). */
  datatype Utf8Error = Utf8Error(validUpTo: nat, errorLen: Option<nat>)

  /** The `Display` text of `Utf8Error` (and of `FromUtf8Error`). */
  function ErrorMessage(e: Utf8Error): string {
    match e.errorLen
    case Some(n) =>
      "invalid utf-8 sequence of " + Text.NatToString(n) + " bytes from index " + Text.NatToString(e.validUpTo)
    case None =>
      "incomplete utf-8 byte sequence from index " + Text.NatToString(e.validUpTo)
  }

  predicate IsContinuation(b: Byte) {
    0x80 <= b <= 0xBF
  }

  /** The range the second byte must fall in, given the first byte of a
      three- or four-byte sequence (excludes overlong forms, surrogates and
      values above U+10FFFF). */
  predicate SecondByteOk(b0: Byte, b1: Byte) {
    if b0 == 0xE0 then 0xA0 <= b1 <= 0xBF
    else if b0 == 0xED then 0x80 <= b1 <= 0x9F
    else if b0 == 0xF0 then 0x90 <= b1 <= 0xBF
    else if b0 == 0xF4 then 0x80 <= b1 <= 0x8F
    else IsContinuation(b1)
  }

  /** The outcome of reading one sequence at the front of the input. */
  datatype Scan = Scalar(c: char, width: nat) | Invalid(errorLen: Option<nat>)

  /** One step of the validation loop of `core::str::from_utf8`. */
  function ScanFirst(b: seq<Byte>): (r: Scan)
    requires b != []
    ensures r.Scalar? ==> 1 <= r.width <= |b|
    ensures r.Invalid? && r.errorLen.Some? ==> 1 <= r.errorLen.value <= 3
  {
    var b0: int := b[0];
    if b0 < 0x80 then Scalar(b0 as char, 1)
    else if 0xC2 <= b0 <= 0xDF then
      if |b| < 2 then Invalid(None)
      else if !IsContinuation(b[1]) then Invalid(Some(1))
      else Scalar(((b0 - 0xC0) * 64 + (b[1] as int - 0x80)) as char, 2)
    else if 0xE0 <= b0 <= 0xEF then
      if |b| < 2 then Invalid(None)
      else if !SecondByteOk(b0, b[1]) then Invalid(Some(1))
      else if |b| < 3 then Invalid(None)
      else if !IsContinuation(b[2]) then Invalid(Some(2))
      else Scalar(((b0 - 0xE0) * 4096 + (b[1] as int - 0x80) * 64 + (b[2] as int - 0x80)) as char, 3)
    else if 0xF0 <= b0 <= 0xF4 then
      if |b| < 2 then Invalid(None)
      else if !SecondByteOk(b0, b[1]) then Invalid(Some(1))
      else if |b| < 3 then Invalid(None)
      else if !IsContinuation(b[2]) then Invalid(Some(2))
      else if |b| < 4 then Invalid(None)
      else if !IsContinuation(b[3]) then Invalid(Some(3))
      else Scalar(((b0 - 0xF0) * 262144 + (b[1] as int - 0x80) * 4096 + (b[2] as int - 0x80) * 64 + (b[3] as int - 0x80)) as char, 4)
    else Invalid(Some(1))
  }

  /** `String::from_utf8`: the decoded text, or the position and length of
      the first bad sequence. */
  function FromUtf8(b: seq<Byte>): (r: Result<string, Utf8Error>)
    ensures r.Err? ==> r.error.validUpTo < |b|
    decreases |b|
  {
    if b == [] then Ok([])
    else
      match ScanFirst(b)
      case Invalid(len) => Err(Utf8Error(0, len))
      case Scalar(c, w) =>
        match FromUtf8(b[w..])
        case Ok(s) => Ok([c] + s)
        case Err(e) => Err(Utf8Error(e.validUpTo + w, e.errorLen))
  }

  /** The bytes of one character in UTF-8. */
  function EncodeChar(c: char): (bytes: seq<Byte>)
    ensures 1 <= |bytes| <= 4
  {
    var cp := c as int;
    if cp < 0x80 then [cp]
    else if cp < 0x800 then [0xC0 + cp / 64, 0x80 + cp % 64]
    else if cp < 0x10000 then [0xE0 + cp / 4096, 0x80 + (cp / 64) % 64, 0x80 + cp % 64]
    else [0xF0 + cp / 262144, 0x80 + (cp / 4096) % 64, 0x80 + (cp / 64) % 64, 0x80 + cp % 64]
  }

  /** The bytes of a `String`. */
  function Encode(s: string): seq<Byte> {
    if s == [] then [] else EncodeChar(s[0]) + Encode(s[1..])
  }

  /** Reading one encoded character back, whatever follows it. */
  lemma ScanEncodeChar(c: char, rest: seq<Byte>)
    ensures ScanFirst(EncodeChar(c) + rest) == Scalar(c, |EncodeChar(c)|)
  {
    var cp := c as int;
    if cp < 0x80 {
    } else if cp < 0x800 {
      assert (cp / 64) * 64 + cp % 64 == cp;
    } else if cp < 0x10000 {
      ScanThreeBytes(c, rest);
    } else {
      ScanFourBytes(c, rest);
    }
  }

  lemma ScanThreeBytes(c: char, rest: seq<Byte>)
    requires 0x800 <= c as int < 0x10000
    ensures ScanFirst(EncodeChar(c) + rest) == Scalar(c, 3)
  {
    var cp := c as int;
    var b := EncodeChar(c) + rest;
    var q := cp / 64;
    assert q * 64 + cp % 64 == cp;
    assert (q / 64) * 64 + q % 64 == q;
    assert cp / 4096 == q / 64;
    assert b[1] == 0x80 + q % 64;
  }

  lemma ScanFourBytes(c: char, rest: seq<Byte>)
    requires 0x10000 <= c as int
    ensures ScanFirst(EncodeChar(c) + rest) == Scalar(c, 4)
  {
    var cp := c as int;
    var b := EncodeChar(c) + rest;
    var q := cp / 64;
    var q2 := q / 64;
    assert q * 64 + cp % 64 == cp;
    assert q2 * 64 + q % 64 == q;
    assert (q2 / 64) * 64 + q2 % 64 == q2;
    assert cp / 4096 == q2;
    assert cp / 262144 == q2 / 64;
    assert b[1] == 0x80 + q2 % 64;
  }

  /** Decoding the bytes of a string gives the string back: a Rust
      `String` always passes `from_utf8`. */
  lemma {:induction false} FromUtf8Encode(s: string)
    ensures FromUtf8(Encode(s)) == Ok(s)
  {
    if s != [] {
      var e := EncodeChar(s[0]);
      ScanEncodeChar(s[0], Encode(s[1..]));
      assert (e + Encode(s[1..]))[|e|..] == Encode(s[1..]);
      FromUtf8Encode(s[1..]);
      assert [s[0]] + s[1..] == s;
    }
  }

  /** A byte string that is not valid UTF-8 is not the encoding of any
      text. */
  lemma NotEncodingOnError(b: seq<Byte>, s: string)
    requires FromUtf8(b).Err?
    ensures Encode(s) != b
  {
    FromUtf8Encode(s);
  }
}
