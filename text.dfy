/** The few operations on Python `str` values that the analyzer relies on:
    `strip()`, `lstrip(chars)`, `split(sep)`, `upper()`, `in` and `startswith`. */
module Text {

  /** Python's `str.isspace()` for one character: the ASCII controls TAB to CR,
      the separators 0x1C to 0x1F, SPACE, NEL, NO-BREAK SPACE and the Unicode
      space separators. */
  predicate IsSpace(c: char) {
    || ('\t' <= c <= '\r')
    || ('\U{1C}' <= c <= '\U{1F}')
    || c == ' ' || c == '\U{85}' || c == '\U{A0}' || c == '\U{1680}'
    || ('\U{2000}' <= c <= '\U{200A}')
    || c == '\U{2028}' || c == '\U{2029}' || c == '\U{202F}' || c == '\U{205F}'
    || c == '\U{3000}'
  }

  /** `s.lstrip(chars)`: drops the longest prefix made only of characters in
      `chars`; the result is a suffix of `s`. */
  function LStripChars(s: string, chars: set<char>): (r: string)
    ensures |r| <= |s| && r == s[|s| - |r|..]
    decreases |s|
  {
    if s != [] && s[0] in chars then LStripChars(s[1..], chars) else s
  }

  /** A character that `lstrip(chars)` drops is one of `chars`. */
  lemma {:induction false} LStripCharsDroppedAt(s: string, chars: set<char>, i: nat)
    requires i < |s| - |LStripChars(s, chars)|
    ensures s[i] in chars
    decreases |s|
  {
    if i > 0 {
      assert s[i] == s[1..][i - 1];
      LStripCharsDroppedAt(s[1..], chars, i - 1);
    }
  }

  /** `lstrip(chars)` stops at the first character that is not one of `chars`. */
  lemma {:induction false} LStripCharsStops(s: string, chars: set<char>)
    ensures LStripChars(s, chars) == [] || LStripChars(s, chars)[0] !in chars
    decreases |s|
  {
    if s != [] && s[0] in chars {
      LStripCharsStops(s[1..], chars);
    }
  }

  /** `lstrip(chars)` drops only characters of `chars`, and all of them up to
      the first character that is not one. */
  lemma LStripCharsDropsOnly(s: string, chars: set<char>)
    ensures forall i :: 0 <= i < |s| - |LStripChars(s, chars)| ==> s[i] in chars
    ensures LStripChars(s, chars) == [] || LStripChars(s, chars)[0] !in chars
  {
    forall i | 0 <= i < |s| - |LStripChars(s, chars)| ensures s[i] in chars {
      LStripCharsDroppedAt(s, chars, i);
    }
    LStripCharsStops(s, chars);
  }

  /** `s.lstrip()`: drops leading whitespace; the result is a suffix of `s` that
      does not start with whitespace. */
  function LStrip(s: string): (r: string)
    ensures |r| <= |s| && r == s[|s| - |r|..]
    ensures r == [] || !IsSpace(r[0])
    decreases |s|
  {
    if s != [] && IsSpace(s[0]) then LStrip(s[1..]) else s
  }

  /** A character that `lstrip()` drops is whitespace. */
  lemma {:induction false} LStripDroppedAt(s: string, i: nat)
    requires i < |s| - |LStrip(s)|
    ensures IsSpace(s[i])
    decreases |s|
  {
    if i > 0 {
      assert s[i] == s[1..][i - 1];
      LStripDroppedAt(s[1..], i - 1);
    }
  }

  /** Only whitespace is dropped by `lstrip()`. */
  lemma LStripDropsOnlySpace(s: string)
    ensures forall i :: 0 <= i < |s| - |LStrip(s)| ==> IsSpace(s[i])
  {
    forall i | 0 <= i < |s| - |LStrip(s)| ensures IsSpace(s[i]) {
      LStripDroppedAt(s, i);
    }
  }

  /** `s.rstrip()`: drops trailing whitespace; the result is a prefix of `s` that
      does not end with whitespace. */
  function RStrip(s: string): (r: string)
    ensures |r| <= |s| && r == s[..|r|]
    ensures r == [] || !IsSpace(r[|r| - 1])
    decreases |s|
  {
    if s != [] && IsSpace(s[|s| - 1]) then RStrip(s[..|s| - 1]) else s
  }

  /** `s.strip()`: the result neither starts nor ends with whitespace, and it is
      a prefix of what `lstrip()` leaves (so a contiguous piece of `s`). */
  function Strip(s: string): (r: string)
    ensures r == [] || (!IsSpace(r[0]) && !IsSpace(r[|r| - 1]))
    ensures |r| <= |LStrip(s)| && r == LStrip(s)[..|r|]
  {
    var l := LStrip(s);
    var r := RStrip(l);
    assert r != [] ==> !IsSpace(r[0]) by {
      if r != [] { assert r[0] == l[0]; }
    }
    r
  }

  /** `rstrip()` never removes a string's first character when it is not
      whitespace. */
  lemma {:induction false} RStripKeepsNonSpace(s: string)
    requires s != [] && !IsSpace(s[0])
    ensures RStrip(s) != []
    decreases |s|
  {
    if IsSpace(s[|s| - 1]) {
      RStripKeepsNonSpace(s[..|s| - 1]);
    }
  }

  /** `strip()` gives the empty string exactly when `s` is all whitespace. */
  lemma StripEmptyIffAllSpace(s: string)
    ensures Strip(s) == [] <==> forall i :: 0 <= i < |s| ==> IsSpace(s[i])
  {
    var l := LStrip(s);
    LStripDropsOnlySpace(s);
    if Strip(s) == [] {
      assert l == [] by {
        if l != [] { RStripKeepsNonSpace(l); }
      }
    } else {
      var a := |s| - |l|;
      assert !IsSpace(s[a]);
    }
  }

  /** Occurrences of `c` in `s`. */
  function CountChar(s: string, c: char): nat
    decreases |s|
  {
    if s == [] then 0 else (if s[0] == c then 1 else 0) + CountChar(s[1..], c)
  }

  /** `s.split(sep)` for a one-character separator: the pieces between
      separators, including empty ones; `"".split(sep)` is `[""]`. */
  function Split(s: string, sep: char): (parts: seq<string>)
    ensures |parts| >= 1
    ensures forall i :: 0 <= i < |parts| ==> sep !in parts[i]
    decreases |s|
  {
    if s == [] then [""]
    else
      var rest := Split(s[1..], sep);
      if s[0] == sep then [""] + rest
      else [[s[0]] + rest[0]] + rest[1..]
  }

  /** `sep.join(parts)`. */
  function Join(parts: seq<string>, sep: char): string
    decreases |parts|
  {
    if parts == [] then ""
    else if |parts| == 1 then parts[0]
    else parts[0] + [sep] + Join(parts[1..], sep)
  }

  /** `split` yields one more piece than there are separators. */
  lemma {:induction false} SplitCount(s: string, sep: char)
    ensures |Split(s, sep)| == CountChar(s, sep) + 1
    decreases |s|
  {
    if s != [] {
      SplitCount(s[1..], sep);
    }
  }

  /** Joining the pieces with the separator gives back the string. */
  lemma {:induction false} SplitJoin(s: string, sep: char)
    ensures Join(Split(s, sep), sep) == s
    decreases |s|
  {
    if s != [] {
      var rest := Split(s[1..], sep);
      SplitJoin(s[1..], sep);
      if s[0] == sep {
        assert Split(s, sep) == [""] + rest;
        assert ([""] + rest)[1..] == rest;
      } else {
        var parts := Split(s, sep);
        assert parts == [[s[0]] + rest[0]] + rest[1..];
        if |rest| == 1 {
          assert parts == [[s[0]] + rest[0]];
        } else {
          assert parts[1..] == rest[1..];
          assert Join(rest, sep) == rest[0] + [sep] + Join(rest[1..], sep);
        }
      }
    }
  }

  /** Python's `upper()` on one character, for the characters whose upper-case
      form is one character and that are modelled: `a` to `z`; `à` to `þ` except
      the sign `÷`, mapped 32 positions down; `µ` to Greek `Μ`; `ÿ` to `Ÿ`; the
      dotless `ı` to `I`; the long `ſ` to `S`. Every other character is left as
      it is. */
  function UpperChar(c: char): char {
    if 'a' <= c <= 'z' then (c as int - 32) as char
    else if '\U{E0}' <= c <= '\U{FE}' && c != '\U{F7}' then (c as int - 32) as char
    else if c == '\U{B5}' then '\U{039C}'
    else if c == '\U{FF}' then '\U{0178}'
    else if c == '\U{0131}' then 'I'
    else if c == '\U{017F}' then 'S'
    else c
  }

  /** `s.upper()` for the characters `UpperChar` models: one character for one,
      position by position. */
  function Upper(s: string): (r: string)
    ensures |r| == |s|
    decreases |s|
  {
    if s == [] then [] else [UpperChar(s[0])] + Upper(s[1..])
  }

  /** The i-th character of `Upper(s)` is the upper-case form of the i-th of `s`. */
  lemma {:induction false} UpperAt(s: string, i: nat)
    requires i < |s|
    ensures Upper(s)[i] == UpperChar(s[i])
    decreases |s|
  {
    if i > 0 {
      UpperAt(s[1..], i - 1);
    }
  }

  /** `Upper` commutes with dropping a prefix. */
  lemma {:induction false} UpperDrop(s: string, a: nat)
    requires a <= |s|
    ensures Upper(s[a..]) == Upper(s)[a..]
    decreases a
  {
    if a > 0 {
      assert s[a..] == s[1..][a - 1..];
      UpperDrop(s[1..], a - 1);
    }
  }

  /** `Upper` commutes with taking a prefix. */
  lemma {:induction false} UpperTake(s: string, b: nat)
    requires b <= |s|
    ensures Upper(s[..b]) == Upper(s)[..b]
    decreases b
  {
    if b > 0 {
      var t := s[..b];
      assert t[0] == s[0] && t[1..] == s[1..][..b - 1];
      UpperTake(s[1..], b - 1);
    }
  }

  /** `Upper` changes every character and only through `UpperChar`. */
  lemma UpperCharwise(s: string)
    ensures forall i :: 0 <= i < |s| ==> Upper(s)[i] == UpperChar(s[i])
  {
    forall i | 0 <= i < |s| ensures Upper(s)[i] == UpperChar(s[i]) {
      UpperAt(s, i);
    }
  }

  /** `w in s` for strings: `w` is a prefix of `s` or occurs in its tail. The
      empty string occurs in every string. */
  predicate Contains(s: string, w: string)
    decreases |s|
  {
    |w| <= |s| && (s[..|w|] == w || Contains(s[1..], w))
  }

  /** What the tail of `s` from index `a` contains, `s` contains. */
  lemma {:induction false} ContainsSuffix(s: string, a: nat, w: string)
    requires a <= |s| && Contains(s[a..], w)
    ensures Contains(s, w)
    decreases a
  {
    if a > 0 {
      assert s[a..] == s[1..][a - 1..];
      ContainsSuffix(s[1..], a - 1, w);
    }
  }

  /** What the first `b` characters of `s` contain, `s` contains. */
  lemma {:induction false} ContainsPrefix(s: string, b: nat, w: string)
    requires b <= |s| && Contains(s[..b], w)
    ensures Contains(s, w)
    decreases b
  {
    var t := s[..b];
    if t[..|w|] == w {
      assert s[..|w|] == w;
    } else {
      assert t[1..] == s[1..][..b - 1];
      ContainsPrefix(s[1..], b - 1, w);
    }
  }

  /** `s.startswith(c)` for a one-character prefix. */
  predicate StartsWith(s: string, c: char) {
    |s| > 0 && s[0] == c
  }
}
