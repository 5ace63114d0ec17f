/**
 * The JavaScript string operations the components rely on: `trim`, `toLowerCase`,
 * `includes`, `endsWith`, `split`/`join`, `replace`, number-to-text conversion,
 * `padStart`, and the two URL encoders (`URLSearchParams` serialisation and
 * `encodeURIComponent`).
 */
module Text {

  /** The characters JavaScript's `trim()` and the regular-expression class `\s` treat as white space. */
  predicate IsSpace(c: char) {
    || c == ' ' || c == '\t' || c == '\n' || c == '\r' || c == '\U{000B}' || c == '\U{000C}'
    || c == '\U{00A0}' || c == '\U{1680}' || ('\U{2000}' <= c <= '\U{200A}')
    || c == '\U{2028}' || c == '\U{2029}' || c == '\U{202F}' || c == '\U{205F}' || c == '\U{3000}'
    || c == '\U{FEFF}'
  }

  /** A string that `trim()` turns into the empty string. */
  predicate IsBlank(s: string) {
    forall i :: 0 <= i < |s| ==> IsSpace(s[i])
  }

  function TrimStart(s: string): (r: string)
    ensures |r| <= |s| && r == s[|s| - |r|..]
    ensures r == [] || !IsSpace(r[0])
    ensures forall i :: 0 <= i < |s| - |r| ==> IsSpace(s[i])
  {
    if s != [] && IsSpace(s[0]) then TrimStart(s[1..]) else s
  }

  function TrimEnd(s: string): (r: string)
    ensures |r| <= |s| && r == s[..|r|]
    ensures r == [] || !IsSpace(r[|r| - 1])
    ensures forall i :: |r| <= i < |s| ==> IsSpace(s[i])
  {
    if s != [] && IsSpace(s[|s| - 1]) then TrimEnd(s[..|s| - 1]) else s
  }

  /** `s.trim()`: the empty string exactly for blank input, otherwise a slice of `s` with no white space at either end. */
  function Trim(s: string): (r: string)
    ensures r == [] <==> IsBlank(s)
    ensures r != [] ==> !IsSpace(r[0]) && !IsSpace(r[|r| - 1])
    ensures r == TrimEnd(TrimStart(s))
    ensures exists k :: 0 <= k <= |s| - |r| && OccursAt(s, r, k)
  {
    var t := TrimStart(s);
    var r := TrimEnd(t);
    assert r == [] ==> t == [];
    assert r != [] ==> r[0] == t[0];
    assert s[|s| - |t|..|s| - |t| + |r|] == r;
    assert OccursAt(s, r, |s| - |t|);
    r
  }

  /** `toLowerCase` on one character (ASCII letters only). */
  function LowerChar(c: char): (d: char)
    ensures 'A' <= c <= 'Z' ==> 'a' <= d <= 'z' && d as int == c as int + 32
    ensures !('A' <= c <= 'Z') ==> d == c
  {
    if 'A' <= c <= 'Z' then (c as int + 32) as char else c
  }

  /** `toUpperCase` on one character (ASCII letters only). */
  function UpperChar(c: char): (d: char)
    ensures 'a' <= c <= 'z' ==> 'A' <= d <= 'Z' && d as int == c as int - 32
    ensures !('a' <= c <= 'z') ==> d == c
  {
    if 'a' <= c <= 'z' then (c as int - 32) as char else c
  }

  /** Upper-casing undoes lower-casing on every character that is not a lower-case ASCII letter. */
  lemma UpperUndoesLower(c: char)
    requires !('a' <= c <= 'z')
    ensures UpperChar(LowerChar(c)) == c
  {
  }

  function ToLower(s: string): (r: string)
    ensures |r| == |s|
    ensures forall i :: 0 <= i < |s| ==> r[i] == LowerChar(s[i])
  {
    seq(|s|, i requires 0 <= i < |s| => LowerChar(s[i]))
  }

  /** `s.startsWith(p)` */
  predicate IsPrefix(p: string, s: string) {
    |p| <= |s| && s[..|p|] == p
  }

  /** `s.endsWith(suffix)` */
  predicate EndsWith(s: string, suffix: string) {
    |suffix| <= |s| && s[|s| - |suffix|..] == suffix
  }

  /** `sub` stands in `s` starting at index `k`. */
  predicate OccursAt(s: string, sub: string, k: int) {
    0 <= k <= |s| - |sub| && s[k..k + |sub|] == sub
  }

  /** `s.includes(sub)` */
  predicate Contains(s: string, sub: string) {
    exists k :: 0 <= k <= |s| - |sub| && OccursAt(s, sub, k)
  }

  function DigitChar(d: nat): (c: char)
    requires d < 10
    ensures '0' <= c <= '9'
  {
    ('0' as int + d) as char
  }

  predicate IsDigits(s: string) {
    forall i :: 0 <= i < |s| ==> '0' <= s[i] <= '9'
  }

  /** Decimal text of a natural number, as `String(n)` writes it: no sign, no leading zero. */
  function NatToString(n: nat): (r: string)
    ensures |r| >= 1 && IsDigits(r)
    ensures r[0] == '0' ==> n == 0 && r == "0"
  {
    if n < 10 then [DigitChar(n)] else NatToString(n / 10) + [DigitChar(n % 10)]
  }

  /** The value of a string of decimal digits. */
  function DigitsValue(s: string): nat
    requires IsDigits(s)
  {
    if s == [] then 0 else DigitsValue(s[..|s| - 1]) * 10 + (s[|s| - 1] as int - '0' as int)
  }

  /** Reading back the text `NatToString` writes gives the number again. */
  lemma {:induction false} NatToStringRoundTrip(n: nat)
    ensures DigitsValue(NatToString(n)) == n
  {
    if n >= 10 {
      var r := NatToString(n);
      assert r[..|r| - 1] == NatToString(n / 10);
      NatToStringRoundTrip(n / 10);
    }
  }

  /** `String(i)` for an integer. */
  function IntToString(i: int): (r: string)
    ensures |r| >= 1
    ensures i < 0 <==> r[0] == '-'
    ensures i >= 0 ==> r == NatToString(i)
  {
    if i < 0 then "-" + NatToString(-i) else NatToString(i)
  }

  /** `s.padStart(2, '0')` */
  function PadStart2(s: string): (r: string)
    ensures |s| >= 2 ==> r == s
    ensures |s| < 2 ==> |r| == 2 && EndsWith(r, s) && forall i :: 0 <= i < 2 - |s| ==> r[i] == '0'
  {
    if |s| >= 2 then s else if |s| == 1 then "0" + s else "00"
  }

  /** `s.split(sep)` for a one-character separator: always at least one piece, none holding `sep`. */
  function Split(s: string, sep: char): (parts: seq<string>)
    ensures |parts| >= 1
    ensures forall j :: 0 <= j < |parts| ==> sep !in parts[j]
    ensures |parts| == Occurrences(s, sep) + 1
  {
    if s == [] then [""]
    else
      var rest := Split(s[1..], sep);
      if s[0] == sep then [""] + rest else [[s[0]] + rest[0]] + rest[1..]
  }

  function Occurrences(s: string, c: char): nat {
    if s == [] then 0 else (if s[0] == c then 1 else 0) + Occurrences(s[1..], c)
  }

  /** `parts.join(sep)` */
  function Join(parts: seq<string>, sep: string): string {
    if |parts| == 0 then ""
    else if |parts| == 1 then parts[0]
    else parts[0] + sep + Join(parts[1..], sep)
  }

  lemma {:induction false} JoinConsHead(c: char, w: string, rest: seq<string>, sep: string)
    ensures Join([[c] + w] + rest, sep) == [c] + Join([w] + rest, sep)
  {
    if |rest| > 0 {
      assert ([[c] + w] + rest)[1..] == rest;
      assert ([w] + rest)[1..] == rest;
    }
  }

  /** A string without the separator splits into itself. */
  lemma {:induction false} SplitWithout(s: string, sep: char)
    requires sep !in s
    ensures Split(s, sep) == [s]
  {
    if s != [] {
      assert s[0] != sep && sep !in s[1..];
      SplitWithout(s[1..], sep);
      assert [s[0]] + s[1..] == s;
    }
  }

  /** Splitting `a + [sep] + b`, where `a` holds no separator, puts `a` first and then the pieces of `b`. */
  lemma {:induction false} SplitAround(a: string, b: string, sep: char)
    requires sep !in a
    ensures Split(a + [sep] + b, sep) == [a] + Split(b, sep)
  {
    if a == [] {
      assert a + [sep] + b == [sep] + b;
      assert ([sep] + b)[1..] == b;
    } else {
      assert (a + [sep] + b)[1..] == a[1..] + [sep] + b;
      SplitAround(a[1..], b, sep);
      assert [a[0]] + a[1..] == a;
    }
  }

  /** Joining separator-free words with the separator and splitting again gives the words back. */
  lemma {:induction false} SplitJoin(words: seq<string>, sep: char)
    requires words != []
    requires forall j :: 0 <= j < |words| ==> sep !in words[j]
    ensures Split(Join(words, [sep]), sep) == words
  {
    if |words| == 1 {
      SplitWithout(words[0], sep);
    } else {
      SplitJoin(words[1..], sep);
      SplitAround(words[0], Join(words[1..], [sep]), sep);
      assert [words[0]] + words[1..] == words;
    }
  }

  /** `w.charAt(0).toUpperCase() + w.slice(1)`: the first character uppercased, the empty word left alone. */
  function UpperFirst(w: string): (r: string)
    ensures |r| == |w|
    ensures w != [] ==> r[0] == UpperChar(w[0]) && r[1..] == w[1..]
  {
    if w == [] then [] else [UpperChar(w[0])] + w[1..]
  }

  /** `s.indexOf(c)` for a character that occurs in `s`. */
  function IndexOf(s: string, c: char): (k: nat)
    requires c in s
    ensures k < |s| && s[k] == c && c !in s[..k]
  {
    if s[0] == c then 0
    else
      var k := 1 + IndexOf(s[1..], c);
      assert s[..k] == [s[0]] + s[1..][..k - 1];
      k
  }

  /** `s.replace(from, to)` with a one-character string pattern: only the first occurrence changes. */
  function ReplaceFirst(s: string, from: char, to: char): (r: string)
    ensures |r| == |s|
    ensures from !in s ==> r == s
    ensures from in s ==> r == s[..IndexOf(s, from)] + [to] + s[IndexOf(s, from) + 1..]
  {
    if from in s then s[..IndexOf(s, from)] + [to] + s[IndexOf(s, from) + 1..] else s
  }

  /**
   * The character-by-character reading of `s.replace(/\s+/g, '-')`: a white-space
   * character becomes `-` when it starts a run (`inRun` says the previous
   * character was white space) and disappears inside a run; every other
   * character is kept.
   */
  function DashEachRun(s: string, inRun: bool): string {
    if s == [] then []
    else if IsSpace(s[0]) then (if inRun then "" else "-") + DashEachRun(s[1..], true)
    else [s[0]] + DashEachRun(s[1..], false)
  }

  /** The string with every maximal run of white space replaced by one `-` (`s.replace(/\s+/g, '-')`), one run at a time. */
  function DashSpaceRuns(s: string): (r: string)
    decreases |s|
    ensures r == DashEachRun(s, false)
    ensures forall i :: 0 <= i < |r| ==> !IsSpace(r[i])
    ensures (forall i :: 0 <= i < |s| ==> !IsSpace(s[i])) ==> r == s
    ensures |r| <= |s|
    ensures forall i :: 0 <= i < |r| ==> r[i] == '-' || r[i] in s
  {
    DashEachRunFacts(s, false);
    if s == [] then []
    else if IsSpace(s[0]) then
      var r := "-" + DashSpaceRuns(TrimStart(s));
      SkipRun(s);
      r
    else [s[0]] + DashSpaceRuns(s[1..])
  }

  /** The character-by-character reading keeps no white space, never lengthens, adds only dashes, and leaves space-free text alone. */
  lemma {:induction false} DashEachRunFacts(s: string, inRun: bool)
    ensures var r := DashEachRun(s, inRun);
            && (forall i :: 0 <= i < |r| ==> !IsSpace(r[i]))
            && ((forall i :: 0 <= i < |s| ==> !IsSpace(s[i])) ==> r == s)
            && |r| <= |s|
            && (forall i :: 0 <= i < |r| ==> r[i] == '-' || r[i] in s)
  {
    if s != [] {
      DashEachRunFacts(s[1..], IsSpace(s[0]));
      var t := DashEachRun(s[1..], IsSpace(s[0]));
      assert forall i :: 0 <= i < |t| ==> t[i] == '-' || t[i] in s by {
        forall i | 0 <= i < |t| && t[i] != '-' ensures t[i] in s {
          var j :| 0 <= j < |s[1..]| && s[1..][j] == t[i];
          assert s[j + 1] == t[i];
        }
      }
    }
  }

  /** Inside a run, the rest of the run adds nothing: reading on from `s` is reading on from `TrimStart(s)`. */
  lemma {:induction false} SkipRun(s: string)
    decreases |s|
    ensures DashEachRun(s, true) == DashEachRun(TrimStart(s), false) || TrimStart(s) == s
    ensures s != [] && IsSpace(s[0]) ==> DashEachRun(s[1..], true) == DashEachRun(TrimStart(s), false)
  {
    if s != [] && IsSpace(s[0]) {
      SkipRun(s[1..]);
      var t := s[1..];
      if t != [] && IsSpace(t[0]) {
      } else {
        assert TrimStart(t) == t;
        if t != [] {
          assert DashEachRun(t, true) == DashEachRun(t, false);
        }
      }
    }
  }

  /** Characters `URLSearchParams` writes as they are. */
  predicate FormSafe(c: char) {
    ('a' <= c <= 'z') || ('A' <= c <= 'Z') || ('0' <= c <= '9') || c == '*' || c == '-' || c == '.' || c == '_'
  }

  /** Characters `encodeURIComponent` writes as they are. */
  predicate UriSafe(c: char) {
    ('a' <= c <= 'z') || ('A' <= c <= 'Z') || ('0' <= c <= '9')
    || c == '-' || c == '_' || c == '.' || c == '!' || c == '~' || c == '*' || c == '\'' || c == '(' || c == ')'
  }

  function HexDigit(d: nat): (c: char)
    requires d < 16
    ensures ('0' <= c <= '9') || ('A' <= c <= 'F')
  {
    if d < 10 then DigitChar(d) else ('A' as int + (d - 10)) as char
  }

  /** The UTF-8 bytes of one Unicode scalar value. */
  function Utf8(c: char): (bytes: seq<nat>)
    ensures 1 <= |bytes| <= 4
    ensures forall i :: 0 <= i < |bytes| ==> bytes[i] < 256
  {
    var v := c as int;
    if v < 0x80 then [v]
    else if v < 0x800 then [0xC0 + v / 0x40, 0x80 + v % 0x40]
    else if v < 0x10000 then [0xE0 + v / 0x1000, 0x80 + (v / 0x40) % 0x40, 0x80 + v % 0x40]
    else [0xF0 + v / 0x40000, 0x80 + (v / 0x1000) % 0x40, 0x80 + (v / 0x40) % 0x40, 0x80 + v % 0x40]
  }

  predicate IsPercentText(s: string) {
    forall i :: 0 <= i < |s| ==> s[i] == '%' || ('0' <= s[i] <= '9') || ('A' <= s[i] <= 'F')
  }

  function PercentBytes(bytes: seq<nat>): (r: string)
    requires forall i :: 0 <= i < |bytes| ==> bytes[i] < 256
    ensures |r| == 3 * |bytes|
    ensures IsPercentText(r)
  {
    if bytes == [] then ""
    else ['%', HexDigit(bytes[0] / 16), HexDigit(bytes[0] % 16)] + PercentBytes(bytes[1..])
  }

  /** The value of a hexadecimal digit written by `HexDigit`. */
  function HexValue(c: char): (d: nat)
    ensures d < 16
  {
    if '0' <= c <= '9' then c as int - '0' as int
    else if 'A' <= c <= 'F' then c as int - 'A' as int + 10
    else 0
  }

  /** The two hexadecimal digits `%XY` of a byte read back as that byte. */
  lemma HexRoundTrip(b: nat)
    requires b < 256
    ensures HexValue(HexDigit(b / 16)) * 16 + HexValue(HexDigit(b % 16)) == b
  {
    assert HexValue(HexDigit(b / 16)) == b / 16;
    assert HexValue(HexDigit(b % 16)) == b % 16;
  }

  /** The UTF-8 bytes of a whole string, character after character. */
  function Utf8Of(s: string): seq<nat> {
    if s == [] then [] else Utf8(s[0]) + Utf8Of(s[1..])
  }

  /**
   * The bytes a query string stands for: `%XY` is the byte `0xXY`, `+` is a
   * space when `plusIsSpace` (form decoding) and itself otherwise, and any
   * other character is its own UTF-8.
   */
  function PercentDecode(r: string, plusIsSpace: bool): seq<nat>
    decreases |r|
  {
    if r == [] then []
    else if r[0] == '%' && |r| >= 3 then [HexValue(r[1]) * 16 + HexValue(r[2])] + PercentDecode(r[3..], plusIsSpace)
    else if r[0] == '+' && plusIsSpace then [0x20] + PercentDecode(r[1..], plusIsSpace)
    else Utf8(r[0]) + PercentDecode(r[1..], plusIsSpace)
  }

  /** Decoding percent escapes gives back the bytes they were written from. */
  lemma {:induction false} PercentBytesDecode(bytes: seq<nat>, rest: string, plusIsSpace: bool)
    requires forall i :: 0 <= i < |bytes| ==> bytes[i] < 256
    ensures PercentDecode(PercentBytes(bytes) + rest, plusIsSpace) == bytes + PercentDecode(rest, plusIsSpace)
  {
    if bytes != [] {
      var b := bytes[0];
      var tail := PercentBytes(bytes[1..]) + rest;
      var head := ['%', HexDigit(b / 16), HexDigit(b % 16)];
      assert PercentBytes(bytes) == head + PercentBytes(bytes[1..]);
      var r := PercentBytes(bytes) + rest;
      assert r == head + tail;
      assert r[0] == '%' && r[1] == HexDigit(b / 16) && r[2] == HexDigit(b % 16);
      assert r[3..] == tail;
      HexRoundTrip(b);
      assert PercentDecode(r, plusIsSpace) == [b] + PercentDecode(tail, plusIsSpace);
      PercentBytesDecode(bytes[1..], rest, plusIsSpace);
      assert [b] + bytes[1..] == bytes;
    } else {
      assert PercentBytes(bytes) + rest == rest;
    }
  }

  /** A character that can stand inside a query-string key or value without ending it. */
  predicate QueryChar(c: char) {
    c != '&' && c != '=' && c != '#' && c != '?' && !IsSpace(c)
  }

  /** One character as `URLSearchParams` writes it. */
  function FormChar(c: char): (r: string)
    ensures forall i :: 0 <= i < |r| ==> QueryChar(r[i])
    ensures FormSafe(c) ==> r == [c]
    ensures c == ' ' ==> r == "+"
    ensures !FormSafe(c) && c != ' ' ==> r == PercentBytes(Utf8(c))
  {
    if FormSafe(c) then [c] else if c == ' ' then "+" else PercentBytes(Utf8(c))
  }

  /** One character as `encodeURIComponent` writes it. */
  function UriChar(c: char): (r: string)
    ensures forall i :: 0 <= i < |r| ==> QueryChar(r[i])
    ensures UriSafe(c) ==> r == [c]
    ensures !UriSafe(c) ==> r == PercentBytes(Utf8(c))
  {
    if UriSafe(c) then [c] else PercentBytes(Utf8(c))
  }

  /**
   * `application/x-www-form-urlencoded` encoding of one key or value, as
   * `URLSearchParams.toString()` does it: safe characters kept, a space as `+`,
   * every other character as the percent escapes of its UTF-8 bytes.
   */
  function FormEncode(s: string): (r: string)
    ensures forall i :: 0 <= i < |r| ==> QueryChar(r[i])
    ensures (forall i :: 0 <= i < |s| ==> FormSafe(s[i])) ==> r == s
    ensures s != [] && !FormSafe(s[0]) && s[0] != ' ' ==> r == PercentBytes(Utf8(s[0])) + FormEncode(s[1..])
    ensures s != [] && s[0] == ' ' ==> r == "+" + FormEncode(s[1..])
    ensures s != [] && FormSafe(s[0]) ==> r == [s[0]] + FormEncode(s[1..])
  {
    if s == [] then ""
    else
      var head, tail := FormChar(s[0]), FormEncode(s[1..]);
      assert forall i :: 0 <= i < |head + tail| ==> QueryChar((head + tail)[i]) by {
        forall i | 0 <= i < |head + tail| ensures QueryChar((head + tail)[i]) {
          if i >= |head| { assert (head + tail)[i] == tail[i - |head|]; }
        }
      }
      head + tail
  }

  /** Form decoding of a form-encoded text gives back the UTF-8 bytes of the original. */
  lemma {:induction false} FormEncodeRoundTrip(s: string)
    ensures PercentDecode(FormEncode(s), true) == Utf8Of(s)
  {
    if s != [] {
      var rest := FormEncode(s[1..]);
      FormEncodeRoundTrip(s[1..]);
      if FormSafe(s[0]) {
        assert FormEncode(s) == [s[0]] + rest;
        assert ([s[0]] + rest)[1..] == rest;
      } else if s[0] == ' ' {
        assert ("+" + rest)[1..] == rest;
      } else {
        PercentBytesDecode(Utf8(s[0]), rest, true);
      }
    }
  }

  /**
   * `encodeURIComponent(s)`: the unreserved characters kept, every other
   * character as the percent escapes of its UTF-8 bytes.
   */
  function EncodeUriComponent(s: string): (r: string)
    ensures forall i :: 0 <= i < |r| ==> QueryChar(r[i])
    ensures (forall i :: 0 <= i < |s| ==> UriSafe(s[i])) ==> r == s
    ensures s != [] && !UriSafe(s[0]) ==> r == PercentBytes(Utf8(s[0])) + EncodeUriComponent(s[1..])
    ensures s != [] && UriSafe(s[0]) ==> r == [s[0]] + EncodeUriComponent(s[1..])
  {
    if s == [] then ""
    else
      var head, tail := UriChar(s[0]), EncodeUriComponent(s[1..]);
      assert forall i :: 0 <= i < |head + tail| ==> QueryChar((head + tail)[i]) by {
        forall i | 0 <= i < |head + tail| ensures QueryChar((head + tail)[i]) {
          if i >= |head| { assert (head + tail)[i] == tail[i - |head|]; }
        }
      }
      head + tail
  }

  /** Percent decoding of an encoded URI component gives back the UTF-8 bytes of the original. */
  lemma {:induction false} EncodeUriComponentRoundTrip(s: string)
    ensures PercentDecode(EncodeUriComponent(s), false) == Utf8Of(s)
  {
    if s != [] {
      var rest := EncodeUriComponent(s[1..]);
      EncodeUriComponentRoundTrip(s[1..]);
      if UriSafe(s[0]) {
        assert EncodeUriComponent(s) == [s[0]] + rest;
        assert ([s[0]] + rest)[1..] == rest;
      } else {
        PercentBytesDecode(Utf8(s[0]), rest, false);
      }
    }
  }
}
