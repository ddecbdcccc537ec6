/** The pieces of Rust's string library that the daemon and its clients rely
    on: whitespace tokenising, splitting on separator characters, joining,
    trimming, prefix stripping, first-occurrence replacement, and decimal
    formatting and parsing of integers.  Strings are sequences of Unicode
    scalar values, as Rust's `&str` is once decoded. */
module Text {
  import opened Wrappers

  // ---------------------------------------------------------------------
  // Whitespace
  // ---------------------------------------------------------------------

  /** `char::is_whitespace`: the characters with the Unicode White_Space
      property. */
  predicate IsWhitespace(c: char) {
    ('\t' <= c <= '\r') || c == ' ' || c == '\U{85}' || c == '\U{A0}' || c == '\U{1680}'
    || ('\U{2000}' <= c <= '\U{200A}') || c == '\U{2028}' || c == '\U{2029}'
    || c == '\U{202F}' || c == '\U{205F}' || c == '\U{3000}'
  }

  predicate NoWhitespace(s: string) {
    forall i :: 0 <= i < |s| ==> !IsWhitespace(s[i])
  }

  predicate AllWhitespace(s: string) {
    forall i :: 0 <= i < |s| ==> IsWhitespace(s[i])
  }

  /** A token as `split_whitespace` yields it: non-empty, no whitespace. */
  predicate IsToken(t: string) {
    t != [] && NoWhitespace(t)
  }

  /** Length of the longest prefix of `s` that holds no whitespace. */
  function WordLength(s: string): (n: nat)
    ensures n <= |s|
    ensures forall i :: 0 <= i < n ==> !IsWhitespace(s[i])
    ensures n < |s| ==> IsWhitespace(s[n])
  {
    if s == [] || IsWhitespace(s[0]) then 0 else 1 + WordLength(s[1..])
  }

  /** `str::split_whitespace`: the maximal runs of non-whitespace
      characters, in order. */
  function SplitWhitespace(s: string): (tokens: seq<string>)
    ensures forall t :: t in tokens ==> IsToken(t)
    decreases |s|
  {
    if s == [] then []
    else if IsWhitespace(s[0]) then SplitWhitespace(s[1..])
    else
      var n := WordLength(s);
      [s[..n]] + SplitWhitespace(s[n..])
  }

  /** A line yields no token exactly when it is all whitespace (the empty
      line included). */
  lemma {:induction false} SplitWhitespaceEmpty(s: string)
    ensures SplitWhitespace(s) == [] <==> AllWhitespace(s)
    decreases |s|
  {
    if s != [] {
      if IsWhitespace(s[0]) {
        SplitWhitespaceEmpty(s[1..]);
        if AllWhitespace(s[1..]) {
          forall i | 0 <= i < |s| ensures IsWhitespace(s[i]) {
            if i > 0 { assert s[i] == s[1..][i - 1]; }
          }
        }
      }
    }
  }

  /** A run without whitespace is one token. */
  lemma {:induction false} SplitWhitespaceWord(w: string)
    requires IsToken(w)
    ensures SplitWhitespace(w) == [w]
  {
    var n := WordLength(w);
    assert n == |w|;
    assert w[..n] == w;
    assert w[n..] == [];
  }

  /** Tokenising distributes over a whitespace separator. */
  lemma {:induction false} SplitWhitespaceConcat(a: string, c: char, b: string)
    requires IsWhitespace(c)
    ensures SplitWhitespace(a + [c] + b) == SplitWhitespace(a) + SplitWhitespace(b)
    decreases |a|, 1
  {
    if a == [] {
      SpaceFirst([], c, b);
      assert [] + [c] + b == [c] + ([] + b);
    } else if IsWhitespace(a[0]) {
      SpaceConcat(a, c, b);
    } else {
      WordConcat(a, c, b);
    }
  }

  /** The case of a text that starts with whitespace. */
  lemma {:induction false} SpaceConcat(a: string, c: char, b: string)
    requires IsWhitespace(c) && a != [] && IsWhitespace(a[0])
    ensures SplitWhitespace(a + [c] + b) == SplitWhitespace(a) + SplitWhitespace(b)
    decreases |a|, 0
  {
    var s := a + [c] + b;
    SpaceHead(a);
    SpaceHead(s);
    assert s[1..] == a[1..] + [c] + b;
    SplitWhitespaceConcat(a[1..], c, b);
  }

  /** The case of a text that starts with a word. */
  lemma {:induction false} WordConcat(a: string, c: char, b: string)
    requires IsWhitespace(c) && a != [] && !IsWhitespace(a[0])
    ensures SplitWhitespace(a + [c] + b) == SplitWhitespace(a) + SplitWhitespace(b)
    decreases |a|, 0
  {
    var n := WordLength(a);
    FirstWordConcat(a, c, b);
    SplitWhitespaceConcat(a[n..], c, b);
    SeqAssoc([a[..n]], SplitWhitespace(a[n..]), SplitWhitespace(b));
  }

  /** Whitespace at the front is skipped. */
  lemma SpaceHead(s: string)
    requires s != [] && IsWhitespace(s[0])
    ensures SplitWhitespace(s) == SplitWhitespace(s[1..])
  {
  }

  /** A leading whitespace character yields no token. */
  lemma SpaceFirst(a: string, c: char, b: string)
    requires IsWhitespace(c)
    ensures SplitWhitespace([c] + (a + b)) == SplitWhitespace(a + b)
  {
    assert ([c] + (a + b))[1..] == a + b;
  }

  lemma SeqAssoc<T>(x: seq<T>, y: seq<T>, z: seq<T>)
    ensures x + (y + z) == x + y + z
  {
  }

  /** A text that starts with a word keeps that word first when more text
      follows a whitespace character. */
  lemma FirstWordConcat(a: string, c: char, b: string)
    requires IsWhitespace(c) && a != [] && !IsWhitespace(a[0])
    ensures var n := WordLength(a);
      SplitWhitespace(a + [c] + b) == [a[..n]] + SplitWhitespace(a[n..] + [c] + b) &&
      SplitWhitespace(a) == [a[..n]] + SplitWhitespace(a[n..])
  {
    var s := a + [c] + b;
    var n := WordLength(a);
    WordLengthConcat(a, c, b);
    assert s[..n] == a[..n];
    assert s[n..] == a[n..] + [c] + b;
  }

  lemma {:induction false} WordLengthConcat(a: string, c: char, b: string)
    requires IsWhitespace(c)
    ensures WordLength(a + [c] + b) == WordLength(a)
    decreases |a|
  {
    var s := a + [c] + b;
    if a != [] && !IsWhitespace(a[0]) {
      assert s[1..] == a[1..] + [c] + b;
      WordLengthConcat(a[1..], c, b);
    }
  }

  /** Joining tokens with single spaces and tokenising again gives the
      tokens back. */
  lemma {:induction false} SplitWhitespaceJoin(tokens: seq<string>)
    requires forall t :: t in tokens ==> IsToken(t)
    ensures SplitWhitespace(Join(tokens, " ")) == tokens
    decreases |tokens|
  {
    if |tokens| == 1 {
      SplitWhitespaceWord(tokens[0]);
    } else if |tokens| > 1 {
      var rest := Join(tokens[1..], " ");
      assert Join(tokens, " ") == tokens[0] + [' '] + rest;
      SplitWhitespaceConcat(tokens[0], ' ', rest);
      SplitWhitespaceWord(tokens[0]);
      SplitWhitespaceJoin(tokens[1..]);
      assert tokens == [tokens[0]] + tokens[1..];
    }
  }

  // ---------------------------------------------------------------------
  // Joining and splitting on separator characters
  // ---------------------------------------------------------------------

  /** `slice.join(sep)`. */
  function Join(parts: seq<string>, sep: string): string {
    if parts == [] then []
    else if |parts| == 1 then parts[0]
    else parts[0] + sep + Join(parts[1..], sep)
  }

  /** Joining one more part adds the separator and the part. */
  lemma {:induction false} JoinSnoc(parts: seq<string>, x: string, sep: string)
    requires parts != []
    ensures Join(parts + [x], sep) == Join(parts, sep) + sep + x
    decreases |parts|
  {
    if |parts| == 1 {
      assert parts + [x] == [parts[0], x];
      assert Join([x], sep) == x;
    } else {
      assert (parts + [x])[1..] == parts[1..] + [x];
      JoinSnoc(parts[1..], x, sep);
    }
  }

  /** What a loop that appends each part followed by `sep`, except after
      the last part, has built once it has handled `parts` and more parts
      follow. */
  function Lead(parts: seq<string>, sep: string): string {
    if parts == [] then [] else Join(parts, sep) + sep
  }

  /** One more part after the parts gives the old lead, the part and one
      more separator. */
  lemma LeadSnoc(parts: seq<string>, x: string, sep: string)
    ensures Lead(parts + [x], sep) == Lead(parts, sep) + x + sep
  {
    if parts == [] {
      assert parts + [x] == [x];
    } else {
      JoinSnoc(parts, x, sep);
    }
  }

  /** One more round of such a loop. */
  lemma JoinPrefix(parts: seq<string>, i: nat, sep: string)
    requires i < |parts|
    ensures Join(parts[..i + 1], sep) == Lead(parts[..i], sep) + parts[i]
    ensures Lead(parts[..i + 1], sep) == Lead(parts[..i], sep) + parts[i] + sep
  {
    if i == 0 {
      assert parts[..1] == [parts[0]];
    } else {
      assert parts[..i + 1] == parts[..i] + [parts[i]];
      JoinSnoc(parts[..i], parts[i], sep);
    }
  }

  /** Joining two non-empty lists of parts puts one separator between
      them. */
  lemma {:induction false} JoinAppend(a: seq<string>, b: seq<string>, sep: string)
    requires a != [] && b != []
    ensures Join(a + b, sep) == Join(a, sep) + sep + Join(b, sep)
    decreases |a|
  {
    if |a| == 1 {
      assert (a + b)[1..] == b;
    } else {
      assert (a + b)[1..] == a[1..] + b;
      JoinAppend(a[1..], b, sep);
    }
  }

  /** The parts one after another: what repeated `push_str` builds. */
  function Concat(parts: seq<string>): string
    decreases |parts|
  {
    if parts == [] then [] else Concat(parts[..|parts| - 1]) + parts[|parts| - 1]
  }

  /** The first `j` parts run together are the first `j - 1` and then
      part `j - 1`. */
  lemma ConcatPrefix(parts: seq<string>, j: nat)
    requires 0 < j <= |parts|
    ensures Concat(parts[..j]) == Concat(parts[..j - 1]) + parts[j - 1]
  {
    assert parts[..j][..j - 1] == parts[..j - 1];
  }

  /** The parts run together are empty exactly when every part is. */
  lemma {:induction false} ConcatEmpty(parts: seq<string>)
    ensures Concat(parts) == [] <==> forall i :: 0 <= i < |parts| ==> parts[i] == []
    decreases |parts|
  {
    if parts != [] {
      var k := |parts| - 1;
      ConcatEmpty(parts[..k]);
      assert forall i :: 0 <= i < k ==> parts[..k][i] == parts[i];
    }
  }

  /** One round of such a loop, after whatever `prefix` the text began
      with. */
  lemma LeadStep(prefix: string, parts: seq<string>, i: nat, sep: string)
    requires i < |parts|
    ensures prefix + Lead(parts[..i], sep) + parts[i] + sep == prefix + Lead(parts[..i + 1], sep)
    ensures i == |parts| - 1 ==> prefix + Lead(parts[..i], sep) + parts[i] == prefix + Join(parts, sep)
  {
    var lead, x := Lead(parts[..i], sep), parts[i];
    JoinPrefix(parts, i, sep);
    SeqAssoc(prefix, lead, x);
    SeqAssoc(prefix, lead + x, sep);
    if i == |parts| - 1 {
      assert parts[..i + 1] == parts;
    }
  }

  predicate Avoids(s: string, seps: set<char>) {
    forall i :: 0 <= i < |s| ==> s[i] !in seps
  }

  /** Number of characters of `s` that belong to `seps`. */
  function CountIn(s: string, seps: set<char>): nat {
    if s == [] then 0 else (if s[0] in seps then 1 else 0) + CountIn(s[1..], seps)
  }

  /** `str::split` with a set of separator characters: one piece more than
      there are separators, empty pieces kept. */
  function Split(s: string, seps: set<char>): (pieces: seq<string>)
    ensures |pieces| == CountIn(s, seps) + 1
    ensures forall p :: p in pieces ==> Avoids(p, seps)
  {
    if s == [] then [[]]
    else if s[0] in seps then [[]] + Split(s[1..], seps)
    else
      var rest := Split(s[1..], seps);
      assert rest[0] in rest;
      assert forall p :: p in rest[1..] ==> p in rest;
      [[s[0]] + rest[0]] + rest[1..]
  }

  /** Splitting on one character and joining with it gives the string
      back. */
  lemma {:induction false} JoinSplit(s: string, c: char)
    ensures Join(Split(s, {c}), [c]) == s
  {
    if s != [] {
      var rest := Split(s[1..], {c});
      JoinSplit(s[1..], c);
      if s[0] == c {
        assert Split(s, {c}) == [[]] + rest;
        assert (Split(s, {c}))[1..] == rest;
      } else {
        var pieces := Split(s, {c});
        assert pieces[0] == [s[0]] + rest[0];
        assert pieces[1..] == rest[1..];
        if |rest| == 1 {
          assert Join(rest, [c]) == rest[0];
        } else {
          assert Join(rest, [c]) == rest[0] + [c] + Join(rest[1..], [c]);
        }
      }
    }
  }

  /** A piece free of separators, then a separator, then anything: the
      piece comes out first. */
  lemma {:induction false} SplitConcat(a: string, c: char, b: string, seps: set<char>)
    requires c in seps && Avoids(a, seps)
    ensures Split(a + [c] + b, seps) == [a] + Split(b, seps)
    decreases |a|
  {
    var s := a + [c] + b;
    if a == [] {
      assert s[1..] == b;
    } else {
      assert s[1..] == a[1..] + [c] + b;
      SplitConcat(a[1..], c, b, seps);
      assert [a[0]] + a[1..] == a;
    }
  }

  /** A string free of separators is one piece. */
  lemma {:induction false} SplitAvoiding(a: string, seps: set<char>)
    requires Avoids(a, seps)
    ensures Split(a, seps) == [a]
  {
    if a != [] {
      SplitAvoiding(a[1..], seps);
      assert [a[0]] + a[1..] == a;
    }
  }

  /** Joining pieces free of the separator and splitting again gives the
      pieces back. */
  lemma {:induction false} SplitJoin(pieces: seq<string>, c: char)
    requires pieces != []
    requires forall p :: p in pieces ==> Avoids(p, {c})
    ensures Split(Join(pieces, [c]), {c}) == pieces
    decreases |pieces|
  {
    if |pieces| == 1 {
      SplitAvoiding(pieces[0], {c});
    } else {
      assert pieces[0] in pieces;
      assert forall p :: p in pieces[1..] ==> p in pieces;
      SplitJoin(pieces[1..], c);
      SplitConcat(pieces[0], c, Join(pieces[1..], [c]), {c});
      assert Join(pieces, [c]) == pieces[0] + [c] + Join(pieces[1..], [c]);
      assert pieces == [pieces[0]] + pieces[1..];
    }
  }

  /** A join begins with its first piece. */
  lemma JoinStartsWith(parts: seq<string>, sep: string)
    requires parts != []
    ensures parts[0] <= Join(parts, sep)
  {
    if |parts| > 1 {
      assert Join(parts, sep) == parts[0] + (sep + Join(parts[1..], sep));
    }
  }

  // ---------------------------------------------------------------------
  // Ordering and sorting
  // ---------------------------------------------------------------------

  /** `Ord for str`: lexicographic order of the characters, which is also
      the order of the UTF-8 bytes. */
  predicate StrLe(a: string, b: string) {
    a == [] || (b != [] && (a[0] < b[0] || (a[0] == b[0] && StrLe(a[1..], b[1..]))))
  }

  lemma {:induction false} StrLeReflexive(a: string)
    ensures StrLe(a, a)
  {
    if a != [] {
      StrLeReflexive(a[1..]);
    }
  }

  lemma {:induction false} StrLeTotal(a: string, b: string)
    ensures StrLe(a, b) || StrLe(b, a)
  {
    if a != [] && b != [] && a[0] == b[0] {
      StrLeTotal(a[1..], b[1..]);
    }
  }

  lemma {:induction false} StrLeAntisymmetric(a: string, b: string)
    requires StrLe(a, b) && StrLe(b, a)
    ensures a == b
  {
    if a != [] {
      StrLeAntisymmetric(a[1..], b[1..]);
      assert a == [a[0]] + a[1..] && b == [b[0]] + b[1..];
    }
  }

  lemma {:induction false} StrLeTransitive(a: string, b: string, c: string)
    requires StrLe(a, b) && StrLe(b, c)
    ensures StrLe(a, c)
  {
    if a != [] && a[0] == b[0] && b[0] == c[0] {
      StrLeTransitive(a[1..], b[1..], c[1..]);
    }
  }

  predicate IsLeast(m: string, keys: set<string>) {
    m in keys && forall k :: k in keys ==> StrLe(m, k)
  }

  lemma {:induction false} LeastExists(keys: set<string>)
    requires keys != {}
    ensures exists m :: IsLeast(m, keys)
    decreases |keys|
  {
    var x :| x in keys;
    var rest := keys - {x};
    if rest == {} {
      assert keys == {x};
      StrLeReflexive(x);
      assert IsLeast(x, keys);
    } else {
      LeastExists(rest);
      var m :| IsLeast(m, rest);
      StrLeTotal(m, x);
      if StrLe(m, x) {
        assert IsLeast(m, keys);
      } else {
        forall k | k in keys ensures StrLe(x, k) {
          if k != x { StrLeTransitive(x, m, k); } else { StrLeReflexive(x); }
        }
        assert IsLeast(x, keys);
      }
    }
  }

  lemma LeastUnique(keys: set<string>)
    ensures forall a, b :: IsLeast(a, keys) && IsLeast(b, keys) ==> a == b
  {
    forall a, b | IsLeast(a, keys) && IsLeast(b, keys) ensures a == b {
      StrLeAntisymmetric(a, b);
    }
  }

  /** A finite set of strings in ascending order, as `sort` leaves a
      vector of distinct keys. */
  function SortedSet(keys: set<string>): (r: seq<string>)
    ensures |r| == |keys|
    ensures forall x :: x in r <==> x in keys
    ensures forall i, j :: 0 <= i < j < |r| ==> StrLe(r[i], r[j]) && r[i] != r[j]
    decreases |keys|
  {
    if keys == {} then []
    else
      LeastExists(keys);
      LeastUnique(keys);
      var m :| IsLeast(m, keys);
      var rest := SortedSet(keys - {m});
      LeastFirst(m, keys, rest);
      [m] + rest
  }

  /** The least key followed by the others in order is in order. */
  lemma LeastFirst(m: string, keys: set<string>, rest: seq<string>)
    requires IsLeast(m, keys)
    requires forall x :: x in rest <==> x in keys - {m}
    requires forall i, j :: 0 <= i < j < |rest| ==> StrLe(rest[i], rest[j]) && rest[i] != rest[j]
    ensures forall i, j :: 0 <= i < j < |[m] + rest| ==> StrLe(([m] + rest)[i], ([m] + rest)[j]) && ([m] + rest)[i] != ([m] + rest)[j]
  {
    var r := [m] + rest;
    forall i, j | 0 <= i < j < |r|
      ensures StrLe(r[i], r[j]) && r[i] != r[j]
    {
      if i == 0 {
        assert r[j] == rest[j - 1] && r[j] in rest;
      } else {
        assert r[i] == rest[i - 1] && r[j] == rest[j - 1];
      }
    }
  }

  // ---------------------------------------------------------------------
  // Trimming, prefixes, replacement
  // ---------------------------------------------------------------------

  /** `str::trim_start`. */
  function TrimStart(s: string): (r: string)
    ensures |r| <= |s| && r == s[|s| - |r|..]
    ensures r == [] || !IsWhitespace(r[0])
    ensures AllWhitespace(s[..|s| - |r|])
  {
    if s != [] && IsWhitespace(s[0]) then
      var r := TrimStart(s[1..]);
      var n := |s| - |r|;
      assert forall i :: 1 <= i < n ==> s[..n][i] == s[1..][..n - 1][i - 1];
      r
    else s
  }

  /** `str::trim_end`. */
  function TrimEnd(s: string): (r: string)
    ensures r <= s
    ensures r == [] || !IsWhitespace(r[|r| - 1])
    ensures AllWhitespace(s[|r|..])
  {
    if s != [] && IsWhitespace(s[|s| - 1]) then
      var r := TrimEnd(s[..|s| - 1]);
      assert s[|r|..] == s[..|s| - 1][|r|..] + [s[|s| - 1]];
      r
    else s
  }

  /** `str::trim`: both ends. */
  function Trim(s: string): string {
    TrimEnd(TrimStart(s))
  }

  /** Trimming leaves a string without surrounding whitespace unchanged and
      empties exactly the all-whitespace strings. */
  lemma TrimFacts(s: string)
    ensures (s == [] || (!IsWhitespace(s[0]) && !IsWhitespace(s[|s| - 1]))) ==> Trim(s) == s
    ensures Trim(s) == [] <==> AllWhitespace(s)
  {
    var t := TrimStart(s);
    if Trim(s) == [] {
      assert t[0..] == t;
      assert t == [];
      assert s[..|s|] == s;
    }
  }

  /** `str::starts_with`. */
  predicate StartsWith(s: string, prefix: string) {
    prefix <= s
  }

  /** `str::trim_start_matches` with a string pattern: removes the prefix as
      many times as it repeats. */
  function TrimStartMatches(s: string, p: string): (r: string)
    ensures |r| <= |s| && r == s[|s| - |r|..]
    ensures p == [] || !StartsWith(r, p)
    decreases |s|
  {
    if p != [] && StartsWith(s, p) then TrimStartMatches(s[|p|..], p) else s
  }

  /** `pat` occurs in `s` at index `j`. */
  predicate MatchAt(s: string, pat: string, j: nat) {
    j + |pat| <= |s| && s[j..j + |pat|] == pat
  }

  /** Index of the first occurrence of `pat` in `s`. */
  function FindFirst(s: string, pat: string): (r: Option<nat>)
    ensures r.Some? ==> MatchAt(s, pat, r.value)
    ensures r.Some? ==> forall j: nat :: j < r.value ==> !MatchAt(s, pat, j)
    ensures r.None? ==> forall j: nat :: !MatchAt(s, pat, j)
  {
    if pat <= s then Some(0)
    else if s == [] then None
    else
      var r := FindFirst(s[1..], pat);
      assert forall j: nat :: 1 <= j ==> (MatchAt(s, pat, j) <==> MatchAt(s[1..], pat, j - 1));
      if r.None? then None else Some(r.value + 1)
  }

  predicate Contains(s: string, pat: string) {
    FindFirst(s, pat).Some?
  }

  /** `str::replacen(pat, to, 1)`: the first occurrence replaced. */
  function ReplaceFirst(s: string, pat: string, to: string): string {
    match FindFirst(s, pat)
    case None => s
    case Some(i) => s[..i] + to + s[i + |pat|..]
  }

  // ---------------------------------------------------------------------
  // Decimal numbers
  // ---------------------------------------------------------------------

  const U32_MAX: int := 0xFFFF_FFFF
  const I32_MIN: int := -0x8000_0000
  const I32_MAX: int := 0x7FFF_FFFF
  const USIZE_MAX: int := 0xFFFF_FFFF_FFFF_FFFF

  /** A Rust `u32`. */
  type U32 = n: int | 0 <= n <= U32_MAX

  /** A Rust `i32`. */
  type I32 = n: int | I32_MIN <= n <= I32_MAX

  /** `as u32` on an `i32`: the two's-complement bits read unsigned. */
  function AsU32(i: I32): (u: U32)
    ensures 0 <= i ==> u == i
    ensures i < 0 ==> u == i + U32_MAX + 1
  {
    if i < 0 then i + U32_MAX + 1 else i
  }

  /** `as i32` on a `u32`: the bits read as two's complement. */
  function AsI32(u: U32): (i: I32)
    ensures u <= I32_MAX ==> i == u
    ensures u > I32_MAX ==> i == u - U32_MAX - 1
  {
    if u > I32_MAX then u - U32_MAX - 1 else u
  }

  /** The two casts undo each other. */
  lemma CastsRoundTrip(i: I32, u: U32)
    ensures AsI32(AsU32(i)) == i
    ensures AsU32(AsI32(u)) == u
  {
  }

  predicate IsDigit(c: char) {
    '0' <= c <= '9'
  }

  predicate AllDigits(s: string) {
    forall i :: 0 <= i < |s| ==> IsDigit(s[i])
  }

  function DigitValue(c: char): (d: nat)
    requires IsDigit(c)
    ensures d < 10
  {
    (c as int) - ('0' as int)
  }

  function DigitChar(d: nat): (c: char)
    requires d < 10
    ensures IsDigit(c) && DigitValue(c) == d
  {
    (('0' as int) + d) as char
  }

  /** `format!("{}", n)` for an unsigned value. */
  function NatToString(n: nat): (r: string)
    ensures r != [] && AllDigits(r)
  {
    if n < 10 then [DigitChar(n)] else NatToString(n / 10) + [DigitChar(n % 10)]
  }

  /** `format!("{}", i)` for a signed value. */
  function IntToString(i: int): string {
    if i < 0 then "-" + NatToString(-i) else NatToString(i)
  }

  /** The value of a digit string read left to right onto `acc`. */
  function DigitsValue(s: string, acc: int): int
    requires AllDigits(s)
  {
    if s == [] then acc else DigitsValue(s[1..], acc * 10 + DigitValue(s[0]))
  }

  /** The kinds of `ParseIntError`. */
  datatype IntErrorKind = Empty | InvalidDigit | PosOverflow | NegOverflow

  /** The `Display` text of `ParseIntError`. */
  function IntErrorMessage(k: IntErrorKind): string {
    match k
    case Empty => "cannot parse integer from empty string"
    case InvalidDigit => "invalid digit found in string"
    case PosOverflow => "number too large to fit in target type"
    case NegOverflow => "number too small to fit in target type"
  }

  /** The digit loop of `from_str_radix` (radix 10): each character is
      checked to be a digit before the step that could overflow. */
  function ParseDigits(s: string, acc: int, positive: bool, lo: int, hi: int): (r: Result<int, IntErrorKind>)
    requires lo <= acc <= hi
    ensures r.Ok? ==> lo <= r.value <= hi
    ensures r != Err(Empty)
    decreases |s|
  {
    if s == [] then Ok(acc)
    else if !IsDigit(s[0]) then Err(InvalidDigit)
    else
      var next := if positive then acc * 10 + DigitValue(s[0]) else acc * 10 - DigitValue(s[0]);
      if next > hi then Err(PosOverflow)
      else if next < lo then Err(NegOverflow)
      else ParseDigits(s[1..], next, positive, lo, hi)
  }

  /** `str::parse` for an integer type whose range is `lo..=hi`: a lone
      sign is an invalid digit, `+` is always allowed, `-` only for signed
      types. */
  function ParseInteger(s: string, signed: bool, lo: int, hi: int): (r: Result<int, IntErrorKind>)
    requires lo <= 0 < hi
    ensures r.Ok? ==> lo <= r.value <= hi
    ensures s == [] <==> r == Err(Empty)
  {
    if s == [] then Err(Empty)
    else if (s[0] == '+' || s[0] == '-') && |s| == 1 then Err(InvalidDigit)
    else if s[0] == '+' then ParseDigits(s[1..], 0, true, lo, hi)
    else if s[0] == '-' && signed then ParseDigits(s[1..], 0, false, lo, hi)
    else ParseDigits(s, 0, true, lo, hi)
  }

  function ParseU32(s: string): (r: Result<int, IntErrorKind>)
    ensures r.Ok? ==> 0 <= r.value <= U32_MAX
  {
    ParseInteger(s, false, 0, U32_MAX)
  }

  function ParseI32(s: string): (r: Result<int, IntErrorKind>)
    ensures r.Ok? ==> I32_MIN <= r.value <= I32_MAX
  {
    ParseInteger(s, true, I32_MIN, I32_MAX)
  }

  function ParseUsize(s: string): (r: Result<int, IntErrorKind>)
    ensures r.Ok? ==> 0 <= r.value <= USIZE_MAX
  {
    ParseInteger(s, false, 0, USIZE_MAX)
  }

  lemma {:induction false} DigitsValueAppend(a: string, b: string, acc: int)
    requires AllDigits(a) && AllDigits(b)
    ensures AllDigits(a + b) && DigitsValue(a + b, acc) == DigitsValue(b, DigitsValue(a, acc))
  {
    if a == [] {
      assert a + b == b;
    } else {
      assert (a + b)[1..] == a[1..] + b;
      DigitsValueAppend(a[1..], b, acc * 10 + DigitValue(a[0]));
    }
  }

  /** Reading back the decimal rendering of `n` gives `n`. */
  lemma {:induction false} NatToStringValue(n: nat)
    ensures DigitsValue(NatToString(n), 0) == n
  {
    if n >= 10 {
      NatToStringValue(n / 10);
      DigitsValueAppend(NatToString(n / 10), [DigitChar(n % 10)], 0);
    }
  }

  lemma {:induction false} DigitsValueGrows(s: string, acc: int)
    requires AllDigits(s) && acc >= 0
    ensures DigitsValue(s, acc) >= acc
  {
    if s != [] {
      DigitsValueGrows(s[1..], acc * 10 + DigitValue(s[0]));
    }
  }

  /** On a digit string the digit loop succeeds exactly when the value fits. */
  lemma {:induction false} ParseDigitsValue(s: string, acc: int, lo: int, hi: int)
    requires AllDigits(s) && lo <= 0 <= acc <= hi
    ensures ParseDigits(s, acc, true, lo, hi)
            == if DigitsValue(s, acc) <= hi then Ok(DigitsValue(s, acc)) else Err(PosOverflow)
  {
    if s != [] {
      var next := acc * 10 + DigitValue(s[0]);
      DigitsValueGrows(s[1..], next);
      if next <= hi {
        ParseDigitsValue(s[1..], next, lo, hi);
      }
    }
  }

  /** Parsing the decimal rendering of a value in range gives the value
      back, for every integer type. */
  lemma ParseNatToString(n: nat, signed: bool, lo: int, hi: int)
    requires lo <= 0 < hi && n <= hi
    ensures ParseInteger(NatToString(n), signed, lo, hi) == Ok(n)
  {
    var s := NatToString(n);
    assert IsDigit(s[0]);
    NatToStringValue(n);
    ParseDigitsValue(s, 0, lo, hi);
  }
}
