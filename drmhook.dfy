/** The DRM connector hook (lib/drmhook.c): it reads a preferred mode
    "<w>x<h>@<r>" from the first line of a file and rewrites the PREFERRED
    flag across the connector's mode array in place. */
module DrmHook {
  import opened Wrappers
  import opened Text

  // ---------------------------------------------------------------------
  // read_preferred_mode
  // ---------------------------------------------------------------------

  /** C's `isspace` in the default locale. */
  predicate IsCSpace(c: char) {
    c == ' ' || c == '\t' || c == '\n' || c == '\r' || c == 11 as char || c == 12 as char
  }

  /** What `%u` skips before the number. */
  function SkipSpace(s: string): (r: string)
    ensures |r| <= |s| && r == s[|s| - |r|..]
    ensures r == [] || !IsCSpace(r[0])
  {
    if s != [] && IsCSpace(s[0]) then SkipSpace(s[1..]) else s
  }

  /** Length of the leading run of decimal digits. */
  function DigitRun(s: string): (n: nat)
    ensures n <= |s| && AllDigits(s[..n]) && (n == |s| || !IsDigit(s[n]))
  {
    if s != [] && IsDigit(s[0]) then
      var n := DigitRun(s[1..]);
      assert s[..n + 1] == [s[0]] + s[1..][..n];
      n + 1
    else 0
  }

  const ULONG_MAX: int := 0xFFFF_FFFF_FFFF_FFFF

  /** The value `%u` stores in an `unsigned int` for a magnitude `v` read
      after an optional sign: `strtoul` gives all ones once `v` no longer
      fits an `unsigned long`, and otherwise `v`, negated modulo 2^64 after
      a '-'; the cast to `unsigned int` keeps the low 32 bits. */
  function Stored(v: nat, negative: bool): (u: U32)
    ensures v > ULONG_MAX ==> u == U32_MAX
    ensures !negative && v <= U32_MAX ==> u == v
    ensures negative && 0 < v <= U32_MAX ==> u == U32_MAX + 1 - v
    ensures negative && v == 0 ==> u == 0
    ensures !negative && v <= ULONG_MAX ==> u == v % (U32_MAX + 1)
    ensures negative && v <= ULONG_MAX ==> (u + v) % (U32_MAX + 1) == 0
  {
    if v > ULONG_MAX then U32_MAX
    else
      // 2^64 is a multiple of 2^32, so negating modulo 2^64 and keeping
      // the low 32 bits is negating the low 32 bits modulo 2^32.
      var low := v % (U32_MAX + 1);
      if negative && low != 0 then U32_MAX + 1 - low else low
  }

  /** The sign `%u` accepts before the digits. */
  predicate IsSign(c: char) {
    c == '+' || c == '-'
  }

  /** One `%u` conversion: whitespace skipped, an optional '+' or '-', then
      the digits; the value and the rest of the input, or None when no
      digit follows. */
  function ScanUnsigned(s: string): (r: Option<(U32, string)>)
    ensures r.Some? ==> |r.value.1| < |s|
  {
    var t := SkipSpace(s);
    var signed := t != [] && IsSign(t[0]);
    var u := if signed then t[1..] else t;
    var n := DigitRun(u);
    if n == 0 then None else Some((Stored(Digits(u[..n]), signed && t[0] == '-'), u[n..]))
  }

  /** The value of a run of decimal digits. */
  function Digits(t: string): (v: nat)
    requires AllDigits(t)
    ensures v == DigitsValue(t, 0)
  {
    DigitsValueGrows(t, 0);
    DigitsValue(t, 0)
  }

  /** The first character of `s` is `c`. */
  predicate Next(s: string, c: char) {
    s != [] && s[0] == c
  }

  /** `sscanf(line, "%ux%u@%u", h, v, r) == 3`: the three values when all
      three conversions succeed. */
  function ScanMode(line: string): (r: Option<(U32, U32, U32)>) {
    match ScanUnsigned(line)
    case None => None
    case Some((w, rest)) =>
      if !Next(rest, 'x') then None
      else match ScanUnsigned(rest[1..])
        case None => None
        case Some((h, rest')) =>
          if !Next(rest', '@') then None
          else match ScanUnsigned(rest'[1..])
            case None => None
            case Some((v, _)) => Some((w, h, v))
  }

  /** `fgets` into a 128-byte buffer: at most 127 characters, up to and
      including the first newline. */
  function FirstLine(text: string): (line: string)
    ensures line <= text && |line| <= 127
  {
    var n := LineLength(text, 127);
    text[..n]
  }

  function LineLength(text: string, room: nat): (n: nat)
    ensures n <= |text| && n <= room
  {
    if text == [] || room == 0 then 0
    else if text[0] == '\n' then 1
    else 1 + LineLength(text[1..], room - 1)
  }

  /** The mode file: one that cannot be opened, or its contents. */
  datatype ModeFile = Unopenable | Contents(text: string)

  /** The mode the file names: None when it cannot be opened, is empty, or
      its first line does not scan. */
  function PreferredMode(file: ModeFile): Option<(U32, U32, U32)> {
    match file
    case Unopenable => None
    case Contents(text) => if text == [] then None else ScanMode(FirstLine(text))
  }

  /** `read_preferred_mode`: 1 and the three values when the file's first
      line scans as "<w>x<h>@<r>", otherwise 0. */
  method ReadPreferredMode(file: ModeFile) returns (ok: int, h: U32, v: U32, r: U32)
    ensures ok == 0 || ok == 1
    ensures ok == 1 <==> PreferredMode(file).Some?
    ensures ok == 1 ==> (h, v, r) == PreferredMode(file).value
  {
    h, v, r := 0, 0, 0;
    match file {
      case Unopenable =>
        return 0, h, v, r;
      case Contents(text) =>
        if text != [] {
          var line := FirstLine(text);
          var scanned := ScanMode(line);
          if scanned.Some? {
            h, v, r := scanned.value.0, scanned.value.1, scanned.value.2;
            return 1, h, v, r;
          }
        }
    }
    ok := 0;
  }

  /** The text "<w>x<h>@<r>". */
  function FormatMode(w: U32, h: U32, r: U32): string {
    NatToString(w) + "x" + NatToString(h) + "@" + NatToString(r)
  }

  /** A decimal number followed by something that is not a digit scans as
      that number. */
  lemma ScanNumber(n: U32, rest: string)
    requires rest == [] || !IsDigit(rest[0])
    ensures ScanUnsigned(NatToString(n) + rest) == Some((n, rest))
  {
    var d := NatToString(n);
    var s := d + rest;
    DigitRunOf(d, rest);
    assert s[..|d|] == d && s[|d|..] == rest;
    ScanDigitsFirst(s, |d|);
    NatToStringValue(n);
  }

  /** Input that starts with a digit is scanned without skipping. */
  lemma ScanDigitsFirst(s: string, k: nat)
    requires s != [] && IsDigit(s[0]) && DigitRun(s) == k
    ensures ScanUnsigned(s) == Some((Stored(Digits(s[..k]), false), s[k..]))
  {
    assert SkipSpace(s) == s && !IsSign(s[0]);
  }

  /** Input that starts with a sign and then a digit is scanned without
      skipping, the sign deciding whether the value is negated. */
  lemma ScanSignFirst(s: string, k: nat)
    requires |s| >= 2 && IsSign(s[0]) && IsDigit(s[1]) && DigitRun(s[1..]) == k
    ensures ScanUnsigned(s) == Some((Stored(Digits(s[1..][..k]), s[0] == '-'), s[1..][k..]))
  {
    assert SkipSpace(s) == s;
  }

  /** The 32-bit two's complement negation of `n`. */
  function Negated(n: U32): (m: U32)
    ensures (n + m) % (U32_MAX + 1) == 0
  {
    if n == 0 then 0 else U32_MAX + 1 - n
  }

  /** A sign before the digits is part of the number: '+' keeps it and
      '-' negates it modulo 2^32. */
  lemma SignedNumber(c: char, n: U32, rest: string)
    requires IsSign(c) && (rest == [] || !IsDigit(rest[0]))
    ensures ScanUnsigned([c] + NatToString(n) + rest) ==
            Some((if c == '-' then Negated(n) else n, rest))
  {
    var d := NatToString(n);
    var s := [c] + d + rest;
    assert s[1..] == d + rest;
    DigitRunOf(d, rest);
    assert (d + rest)[..|d|] == d && (d + rest)[|d|..] == rest;
    ScanSignFirst(s, |d|);
    NatToStringValue(n);
  }

  /** A file whose first line is a formatted mode with a sign in front
      names that mode, its width negated after a '-': "+1920x1080@60"
      names 1920x1080@60 and "-1x1080@60" the width 2^32 - 1. */
  lemma SignedFileRoundTrip(c: char, w: U32, h: U32, r: U32, more: string)
    requires IsSign(c)
    ensures PreferredMode(Contents([c] + FormatMode(w, h, r) + "\n" + more)) ==
            Some((if c == '-' then Negated(w) else w, h, r))
  {
    U32Digits(w);
    U32Digits(h);
    U32Digits(r);
    var m := [c] + FormatMode(w, h, r);
    assert '\n' !in m && |m| <= 33;
    var text := [c] + FormatMode(w, h, r) + "\n" + more;
    assert text == m + ("\n" + more);
    LineLengthOf(m, "\n" + more, 127);
    assert text[..|m| + 1] == m + "\n";
    SignedScanFormatted(c, w, h, r, "\n");
  }

  lemma SignedScanFormatted(c: char, w: U32, h: U32, r: U32, tail: string)
    requires IsSign(c) && (tail == [] || !IsDigit(tail[0]))
    ensures ScanMode([c] + FormatMode(w, h, r) + tail) == Some((if c == '-' then Negated(w) else w, h, r))
  {
    var dw, dh, dr := NatToString(w), NatToString(h), NatToString(r);
    var rest2 := ['@'] + (dr + tail);
    var rest1 := ['x'] + (dh + rest2);
    FormatModeTail(dw, dh, dr, tail);
    assert [c] + FormatMode(w, h, r) + tail == [c] + dw + rest1;
    SignedNumber(c, w, rest1);
    assert rest1[1..] == dh + rest2;
    ScanNumber(h, rest2);
    assert rest2[1..] == dr + tail;
    ScanNumber(r, tail);
    ScanModeOf([c] + dw + rest1, if c == '-' then Negated(w) else w, h, r, rest1, rest2, tail);
  }

  lemma {:induction false} DigitRunOf(d: string, rest: string)
    requires AllDigits(d) && (rest == [] || !IsDigit(rest[0]))
    ensures DigitRun(d + rest) == |d|
    decreases |d|
  {
    if d != [] {
      assert (d + rest)[1..] == d[1..] + rest;
      DigitRunOf(d[1..], rest);
    } else {
      assert d + rest == rest;
    }
  }

  /** A line holding a formatted mode, with anything not a digit after it,
      scans as that mode. */
  lemma ScanFormatted(w: U32, h: U32, r: U32, tail: string)
    requires tail == [] || !IsDigit(tail[0])
    ensures ScanMode(FormatMode(w, h, r) + tail) == Some((w, h, r))
  {
    var dw, dh, dr := NatToString(w), NatToString(h), NatToString(r);
    var rest2 := ['@'] + (dr + tail);
    var rest1 := ['x'] + (dh + rest2);
    FormatModeTail(dw, dh, dr, tail);
    ScanNumber(w, rest1);
    assert rest1[1..] == dh + rest2;
    ScanNumber(h, rest2);
    assert rest2[1..] == dr + tail;
    ScanNumber(r, tail);
    ScanModeOf(dw + rest1, w, h, r, rest1, rest2, tail);
  }

  lemma FormatModeTail(dw: string, dh: string, dr: string, tail: string)
    ensures dw + "x" + dh + "@" + dr + tail == dw + (['x'] + (dh + (['@'] + (dr + tail))))
  {
  }

  /** The three conversions of `ScanMode`, one after the other. */
  lemma ScanModeOf(line: string, w: U32, h: U32, r: U32, rest1: string, rest2: string, rest3: string)
    requires ScanUnsigned(line) == Some((w, rest1)) && Next(rest1, 'x')
    requires ScanUnsigned(rest1[1..]) == Some((h, rest2)) && Next(rest2, '@')
    requires ScanUnsigned(rest2[1..]) == Some((r, rest3))
    ensures ScanMode(line) == Some((w, h, r))
  {
  }

  lemma {:induction false} NatToStringShort(n: nat, k: nat)
    requires n < Pow10(k) && k >= 1
    ensures |NatToString(n)| <= k
    decreases k
  {
    if n >= 10 {
      assert k > 1;
      NatToStringShort(n / 10, k - 1);
    }
  }

  function Pow10(k: nat): (p: nat)
    ensures p >= 1
  {
    if k == 0 then 1 else 10 * Pow10(k - 1)
  }

  /** A 32-bit value has at most ten decimal digits. */
  lemma U32Digits(n: U32)
    ensures |NatToString(n)| <= 10 && '\n' !in NatToString(n)
  {
    assert Pow10(1) == 10;
    assert Pow10(2) == 100;
    assert Pow10(3) == 1000;
    assert Pow10(4) == 10000;
    assert Pow10(5) == 100000;
    assert Pow10(6) == 1000000;
    assert Pow10(7) == 10000000;
    assert Pow10(8) == 100000000;
    assert Pow10(9) == 1000000000;
    assert Pow10(10) == 10000000000;
    NatToStringShort(n, 10);
    var d := NatToString(n);
    assert forall i :: 0 <= i < |d| ==> IsDigit(d[i]);
  }

  /** A file whose first line is a formatted mode names that mode. */
  lemma FileRoundTrip(w: U32, h: U32, r: U32, more: string)
    ensures PreferredMode(Contents(FormatMode(w, h, r) + "\n" + more)) == Some((w, h, r))
  {
    U32Digits(w);
    U32Digits(h);
    U32Digits(r);
    var m := FormatMode(w, h, r);
    assert '\n' !in m && |m| <= 32;
    var text := m + "\n" + more;
    assert text == m + ("\n" + more);
    LineLengthOf(m, "\n" + more, 127);
    assert text[..|m| + 1] == m + "\n";
    ScanFormatted(w, h, r, "\n");
  }

  lemma {:induction false} LineLengthOf(m: string, rest: string, room: nat)
    requires '\n' !in m && |m| < room && rest != [] && rest[0] == '\n'
    ensures LineLength(m + rest, room) == |m| + 1
    decreases |m|
  {
    if m != [] {
      assert (m + rest)[1..] == m[1..] + rest;
      LineLengthOf(m[1..], rest, room - 1);
    } else {
      assert m + rest == rest;
    }
  }

  // ---------------------------------------------------------------------
  // The drmModeGetConnector hook
  // ---------------------------------------------------------------------

  type U16 = n: int | 0 <= n <= 0xFFFF

  /** The fields of `drmModeModeInfo` the hook reads and writes. */
  datatype ModeInfo = ModeInfo(name: string, hdisplay: U16, vdisplay: U16, vrefresh: U32, modeType: U32)

  /** The PREFERRED type flag: bit 3, as libdrm's `drm_mode.h` defines it
      (the hook's own fallback definition, 0x1, applies only when that
      header does not). */
  const DRM_MODE_TYPE_PREFERRED: nat := 8

  /** `type & DRM_MODE_TYPE_PREFERRED != 0`. */
  predicate HasPreferred(t: U32) {
    (t / DRM_MODE_TYPE_PREFERRED) % 2 == 1
  }

  /** `type & ~DRM_MODE_TYPE_PREFERRED`: every other bit of the type. */
  function OtherBits(t: U32): nat {
    if HasPreferred(t) then t - DRM_MODE_TYPE_PREFERRED else t
  }

  /** `type | DRM_MODE_TYPE_PREFERRED`. */
  function WithPreferred(t: U32): (r: U32)
    ensures HasPreferred(r) && OtherBits(r) == OtherBits(t)
  {
    if HasPreferred(t) then t else t + DRM_MODE_TYPE_PREFERRED
  }

  /** `type & ~DRM_MODE_TYPE_PREFERRED`. */
  function WithoutPreferred(t: U32): (r: U32)
    ensures !HasPreferred(r) && OtherBits(r) == OtherBits(t)
  {
    if HasPreferred(t) then t - DRM_MODE_TYPE_PREFERRED else t
  }

  /** A connector as the real `drmModeGetConnector` returns it. */
  class Connector {
    var countModes: int
    var modes: array<ModeInfo>

    constructor(countModes: int, modes: array<ModeInfo>)
      ensures this.countModes == countModes && this.modes == modes
    {
      this.countModes := countModes;
      this.modes := modes;
    }
  }

  predicate Matches(m: ModeInfo, pref: (U32, U32, U32)) {
    m.hdisplay == pref.0 && m.vdisplay == pref.1 && m.vrefresh == pref.2
  }

  /** Everything but the type bits agrees. */
  predicate SameMode(a: ModeInfo, b: ModeInfo) {
    a.name == b.name && a.hdisplay == b.hdisplay && a.vdisplay == b.vdisplay && a.vrefresh == b.vrefresh
  }

  /** One mode after the loop body: the PREFERRED bit set when it matches
      the preferred triple and cleared otherwise. */
  function Rewritten(m: ModeInfo, pref: (U32, U32, U32)): (r: ModeInfo)
    ensures SameMode(r, m)
  {
    if Matches(m, pref) then m.(modeType := WithPreferred(m.modeType))
    else m.(modeType := WithoutPreferred(m.modeType))
  }

  /** The mode array after the hook: the first `count` modes rewritten when
      there are modes and the file names a mode, otherwise unchanged. */
  function AfterHook(modes: seq<ModeInfo>, count: int, pref: Option<(U32, U32, U32)>): (r: seq<ModeInfo>)
    requires count <= |modes|
    ensures |r| == |modes|
  {
    if count <= 0 || pref.None? then modes
    else seq(|modes|, i requires 0 <= i < |modes| => if i < count then Rewritten(modes[i], pref.value) else modes[i])
  }

  /** Without modes, or without a mode named in the file, nothing changes. */
  lemma AfterHookKeeps(modes: seq<ModeInfo>, count: int, pref: Option<(U32, U32, U32)>)
    requires count <= |modes| && (count <= 0 || pref.None?)
    ensures AfterHook(modes, count, pref) == modes
  {
  }

  /** Mode `i` after the hook. */
  lemma AfterHookAt(modes: seq<ModeInfo>, count: int, pref: (U32, U32, U32), i: int)
    requires 0 < count <= |modes| && 0 <= i < |modes|
    ensures AfterHook(modes, count, Some(pref))[i] == if i < count then Rewritten(modes[i], pref) else modes[i]
  {
  }

  /** After the hook, among the connector's modes exactly those equal to
      the named mode are marked PREFERRED, and every mode keeps its other
      type bits and its other fields. */
  lemma PreferredExactlyMatching(modes: seq<ModeInfo>, count: int, pref: (U32, U32, U32), i: int)
    requires 0 < count <= |modes| && 0 <= i < |modes|
    ensures i < count ==>
      (HasPreferred(AfterHook(modes, count, Some(pref))[i].modeType) <==> Matches(modes[i], pref))
    ensures OtherBits(AfterHook(modes, count, Some(pref))[i].modeType) == OtherBits(modes[i].modeType)
    ensures SameMode(AfterHook(modes, count, Some(pref))[i], modes[i])
  {
    AfterHookAt(modes, count, pref, i);
    var m := AfterHook(modes, count, Some(pref))[i];
    if i < count {
      assert m == Rewritten(modes[i], pref);
    } else {
      assert m == modes[i];
    }
  }

  /** Running the hook twice with the same file gives the same modes as
      running it once. */
  lemma HookIdempotent(modes: seq<ModeInfo>, count: int, pref: Option<(U32, U32, U32)>)
    requires count <= |modes|
    ensures AfterHook(AfterHook(modes, count, pref), count, pref) == AfterHook(modes, count, pref)
  {
    var once := AfterHook(modes, count, pref);
    if count > 0 && pref.Some? {
      forall i | 0 <= i < count ensures Rewritten(once[i], pref.value) == once[i] {
        assert Matches(once[i], pref.value) == Matches(modes[i], pref.value);
      }
    }
  }

  /** `drmModeGetConnector`: the connector the real function returned,
      with its modes rewritten in place when it has any and the mode file
      names a mode. */
  method DrmModeGetConnector(connector: Connector?, file: ModeFile) returns (r: Connector?)
    requires connector != null ==> connector.countModes <= connector.modes.Length
    modifies if connector == null then {} else {connector.modes}
    ensures r == connector
    ensures connector != null ==>
      connector.modes[..] == AfterHook(old(connector.modes[..]), connector.countModes, PreferredMode(file))
  {
    if connector == null {
      return connector;
    }
    if connector.countModes <= 0 {
      AfterHookKeeps(connector.modes[..], connector.countModes, PreferredMode(file));
      return connector;
    }
    ApplyModeFile(connector.modes, connector.countModes, file);
    r := connector;
  }

  /** Reading the mode file and, when it names a mode, the loop. */
  method ApplyModeFile(modes: array<ModeInfo>, count: int, file: ModeFile)
    requires 0 < count <= modes.Length
    modifies modes
    ensures modes[..] == AfterHook(old(modes[..]), count, PreferredMode(file))
  {
    var ok, prefWidth, prefHeight, prefRefresh := ReadPreferredMode(file);
    if ok == 0 {
      AfterHookKeeps(modes[..], count, PreferredMode(file));
      return;
    }
    RewriteModes(modes, count, prefWidth, prefHeight, prefRefresh);
  }

  /** The hook's loop over the first `count` modes. */
  method RewriteModes(modes: array<ModeInfo>, count: int, prefWidth: U32, prefHeight: U32, prefRefresh: U32)
    requires 0 < count <= modes.Length
    modifies modes
    ensures modes[..] == AfterHook(old(modes[..]), count, Some((prefWidth, prefHeight, prefRefresh)))
  {
    ghost var pref := (prefWidth, prefHeight, prefRefresh);
    var i := 0;
    while i < count
      invariant 0 <= i <= count
      invariant forall j :: 0 <= j < i ==> modes[j] == Rewritten(old(modes[j]), pref)
      invariant forall j :: i <= j < modes.Length ==> modes[j] == old(modes[j])
    {
      var mode := modes[i];
      if mode.hdisplay == prefWidth && mode.vdisplay == prefHeight && mode.vrefresh == prefRefresh {
        modes[i] := mode.(modeType := WithPreferred(mode.modeType));
      } else {
        modes[i] := mode.(modeType := WithoutPreferred(mode.modeType));
      }
      assert modes[i] == Rewritten(mode, pref);
      i := i + 1;
    }
    forall j | 0 <= j < modes.Length
      ensures modes[j] == AfterHook(old(modes[..]), count, Some(pref))[j]
    {
      AfterHookAt(old(modes[..]), count, pref, j);
    }
  }
}
