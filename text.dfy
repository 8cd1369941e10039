/** Character classes and the operations of Python's `str` that the connectors rely on. */
module Text {

  /** Python's `sub in s` on strings: `sub` occurs somewhere in `s`. */
  predicate Infix(sub: string, s: string)
    decreases |s|
  {
    sub <= s || (s != [] && Infix(sub, s[1..]))
  }

  /** Python's `str.isspace`, which is also what the regex class `\s` matches in a `str` pattern. */
  predicate IsSpace(c: char) {
    || c == ' '
    || ('\t' <= c <= '\r')
    || ('\U{1C}' <= c <= '\U{1F}')
    || c == '\U{85}' || c == '\U{A0}' || c == '\U{1680}'
    || ('\U{2000}' <= c <= '\U{200A}')
    || c == '\U{2028}' || c == '\U{2029}' || c == '\U{202F}' || c == '\U{205F}' || c == '\U{3000}'
  }

  predicate IsDigit(c: char) { '0' <= c <= '9' }

  predicate IsAsciiLowerAlnum(c: char) { 'a' <= c <= 'z' || IsDigit(c) }

  /** The class `[a-z0-9_]` of both column-name normalisers. */
  predicate IsNameChar(c: char) { IsAsciiLowerAlnum(c) || c == '_' }

  predicate AllNameChars(s: string) { forall i :: 0 <= i < |s| ==> IsNameChar(s[i]) }

  predicate NoSpace(s: string) { forall i :: 0 <= i < |s| ==> !IsSpace(s[i]) }

  predicate AllSpace(s: string) { forall i :: 0 <= i < |s| ==> IsSpace(s[i]) }

  /** `str.lower` on one character: ASCII and Latin-1 capitals; other characters are left as they are. */
  function LowerChar(c: char): (r: char)
    ensures 'A' <= c <= 'Z' ==> r as int == c as int + 32
    ensures !('A' <= c <= 'Z') && c < '\U{C0}' ==> r == c
  {
    if 'A' <= c <= 'Z' then (c as int + 32) as char
    else if '\U{C0}' <= c <= '\U{DE}' && c != '\U{D7}' then (c as int + 32) as char
    else c
  }

  function Lower(s: string): (r: string)
    ensures |r| == |s|
  {
    seq(|s|, i requires 0 <= i < |s| => LowerChar(s[i]))
  }

  /**
   * Unicode canonical decomposition followed by dropping the combining marks, for one character:
   * Latin-1 letters with a diacritic decompose to their base letter and the combining diacritics
   * U+0300..U+036F vanish. Every other character is kept as it is.
   */
  function Unaccent(c: char): string {
    if '\U{300}' <= c <= '\U{36F}' then []
    else if '\U{C0}' <= c <= '\U{C5}' then "A"
    else if c == '\U{C7}' then "C"
    else if '\U{C8}' <= c <= '\U{CB}' then "E"
    else if '\U{CC}' <= c <= '\U{CF}' then "I"
    else if c == '\U{D1}' then "N"
    else if '\U{D2}' <= c <= '\U{D6}' then "O"
    else if '\U{D9}' <= c <= '\U{DC}' then "U"
    else if c == '\U{DD}' then "Y"
    else if '\U{E0}' <= c <= '\U{E5}' then "a"
    else if c == '\U{E7}' then "c"
    else if '\U{E8}' <= c <= '\U{EB}' then "e"
    else if '\U{EC}' <= c <= '\U{EF}' then "i"
    else if c == '\U{F1}' then "n"
    else if '\U{F2}' <= c <= '\U{F6}' then "o"
    else if '\U{F9}' <= c <= '\U{FC}' then "u"
    else if c == '\U{FD}' || c == '\U{FF}' then "y"
    else [c]
  }

  /** `str.replace(a, b)` for one-character `a` and `b`. */
  function ReplaceChar(s: string, a: char, b: char): (r: string)
    ensures |r| == |s|
    ensures forall i :: 0 <= i < |s| ==> r[i] == (if s[i] == a then b else s[i])
  {
    seq(|s|, i requires 0 <= i < |s| => if s[i] == a then b else s[i])
  }

  /** `str.replace(a, "")` for a one-character `a`. */
  function RemoveChar(s: string, a: char): (r: string)
    ensures forall i :: 0 <= i < |r| ==> r[i] != a
    ensures |r| <= |s|
  {
    if s == [] then [] else if s[0] == a then RemoveChar(s[1..], a) else [s[0]] + RemoveChar(s[1..], a)
  }

  /** `str.lstrip()`: drops leading whitespace. */
  function LStrip(s: string): (r: string)
    ensures r == [] || !IsSpace(r[0])
    ensures |r| <= |s|
    ensures s != [] && !IsSpace(s[|s| - 1]) ==> r != [] && r[|r| - 1] == s[|s| - 1]
  {
    if s != [] && IsSpace(s[0]) then LStrip(s[1..]) else s
  }

  /** `str.rstrip()`: drops trailing whitespace. */
  function RStrip(s: string): (r: string)
    ensures r == [] || !IsSpace(r[|r| - 1])
    ensures |r| <= |s|
    ensures s != [] && !IsSpace(s[0]) ==> r != [] && r[0] == s[0]
  {
    if s != [] && IsSpace(s[|s| - 1]) then RStrip(s[..|s| - 1]) else s
  }

  /** `str.strip()`: drops whitespace at both ends. */
  function Strip(s: string): (r: string)
    ensures r == [] || (!IsSpace(r[0]) && !IsSpace(r[|r| - 1]))
  {
    RStrip(LStrip(s))
  }

  lemma NoSpaceStrip(s: string)
    requires NoSpace(s)
    ensures Strip(s) == s
  {
    assert LStrip(s) == s by {
      if s != [] { assert !IsSpace(s[0]); }
    }
    if s != [] { assert !IsSpace(s[|s| - 1]); }
  }

  /** Leading whitespace followed by a non-space character is all that `lstrip` removes. */
  lemma {:induction false} LStripSpaces(sp: string, t: string)
    requires AllSpace(sp)
    requires t == [] || !IsSpace(t[0])
    ensures LStrip(sp + t) == t
  {
    if sp != [] {
      assert (sp + t)[1..] == sp[1..] + t;
      LStripSpaces(sp[1..], t);
    } else {
      assert sp + t == t;
    }
  }

  /** Trailing whitespace after a non-space character is all that `rstrip` removes. */
  lemma {:induction false} RStripSpaces(t: string, sp: string)
    requires AllSpace(sp)
    requires t == [] || !IsSpace(t[|t| - 1])
    ensures RStrip(t + sp) == t
  {
    if sp != [] {
      assert (t + sp)[..|t + sp| - 1] == t + sp[..|sp| - 1];
      RStripSpaces(t, sp[..|sp| - 1]);
    } else {
      assert t + sp == t;
    }
  }

  /**
   * `re.sub(r'\s+', ' ', s)`: every maximal run of whitespace becomes one space, so no two
   * whitespace characters are adjacent in the result and the only whitespace left is `' '`.
   */
  function CollapseSpace(s: string): (r: string)
    ensures s != [] && !IsSpace(s[0]) ==> r != [] && r[0] == s[0]
    ensures s != [] && IsSpace(s[0]) ==> r != [] && r[0] == ' '
    ensures s != [] && !IsSpace(s[|s| - 1]) ==> r != [] && !IsSpace(r[|r| - 1])
    decreases |s|
  {
    if s == [] then []
    else if IsSpace(s[0]) then
      assert LStrip(s) == LStrip(s[1..]);
      [' '] + CollapseSpace(LStrip(s))
    else [s[0]] + CollapseSpace(s[1..])
  }

  /** After collapsing, the only whitespace is `' '` and no two whitespace characters are adjacent. */
  lemma {:induction false} CollapseShape(s: string)
    ensures forall i :: 0 <= i < |CollapseSpace(s)| && IsSpace(CollapseSpace(s)[i]) ==> CollapseSpace(s)[i] == ' '
    ensures forall i :: 0 <= i < |CollapseSpace(s)| - 1 ==>
      !(IsSpace(CollapseSpace(s)[i]) && IsSpace(CollapseSpace(s)[i + 1]))
    decreases |s|
  {
    if s != [] {
      var r := CollapseSpace(s);
      var t := if IsSpace(s[0]) then LStrip(s) else s[1..];
      if IsSpace(s[0]) {
        assert LStrip(s) == LStrip(s[1..]);
      }
      CollapseShape(t);
      var rt := CollapseSpace(t);
      assert r == [r[0]] + rt;
      assert IsSpace(r[0]) ==> rt == [] || !IsSpace(rt[0]);
      forall i | 1 <= i < |r| ensures r[i] == rt[i - 1] {
      }
    }
  }

  /** A string without whitespace has no run to collapse. */
  lemma {:induction false} CollapseNoSpace(s: string)
    requires NoSpace(s)
    ensures CollapseSpace(s) == s
  {
    if s != [] {
      assert !IsSpace(s[0]);
      CollapseNoSpace(s[1..]);
    }
  }

  /** A non-space first character is kept as it is. */
  lemma CollapseKeeps(s: string)
    requires s != [] && !IsSpace(s[0])
    ensures CollapseSpace(s) == [s[0]] + CollapseSpace(s[1..])
  {
  }

  /** A leading whitespace run becomes one space. */
  lemma CollapseRun(s: string)
    requires s != [] && IsSpace(s[0])
    ensures CollapseSpace(s) == [' '] + CollapseSpace(LStrip(s))
  {
  }

  /** A word, a whitespace run and the rest: the run becomes one space and the word is untouched. */
  lemma {:induction false} CollapseWordGap(w: string, gap: string, rest: string)
    requires NoSpace(w)
    requires gap != [] && AllSpace(gap)
    requires rest == [] || !IsSpace(rest[0])
    ensures CollapseSpace(w + gap + rest) == w + [' '] + CollapseSpace(rest)
  {
    var c := CollapseSpace(rest);
    if w == [] {
      assert w + gap + rest == gap + rest;
      assert CollapseSpace(gap + rest) == [' '] + c by {
        LStripSpaces(gap, rest);
        CollapseRun(gap + rest);
      }
    } else {
      var s := w + gap + rest;
      assert CollapseSpace(s) == [w[0]] + CollapseSpace(w[1..] + gap + rest) by {
        assert s[0] == w[0] && !IsSpace(w[0]);
        assert s[1..] == w[1..] + gap + rest;
        CollapseKeeps(s);
      }
      assert CollapseSpace(w[1..] + gap + rest) == w[1..] + [' '] + c by {
        assert NoSpace(w[1..]);
        CollapseWordGap(w[1..], gap, rest);
      }
      assert [w[0]] + (w[1..] + [' '] + c) == w + [' '] + c by {
        assert [w[0]] + w[1..] == w;
      }
    }
  }

  /** `str.strip(c)` for one character `c`. */
  function StripChar(s: string, c: char): (r: string)
    ensures r == [] || (r[0] != c && r[|r| - 1] != c)
    ensures |r| <= |s|
  {
    if s == [] then []
    else if s[0] == c then StripChar(s[1..], c)
    else if s[|s| - 1] == c then StripChar(s[..|s| - 1], c)
    else s
  }

  /** `str.split(sep)` for a one-character separator. */
  function Split(s: string, sep: char): (parts: seq<string>)
    ensures |parts| >= 1
  {
    if s == [] then [""]
    else
      var rest := Split(s[1..], sep);
      if s[0] == sep then [""] + rest else [[s[0]] + rest[0]] + rest[1..]
  }

  /** `sep.join(parts)`. */
  function Join(parts: seq<string>, sep: char): string {
    if parts == [] then "" else if |parts| == 1 then parts[0] else parts[0] + [sep] + Join(parts[1..], sep)
  }

  /** Splitting and joining again on the same separator gives back the string. */
  lemma {:induction false} JoinSplit(s: string, sep: char)
    ensures Join(Split(s, sep), sep) == s
  {
    if s != [] {
      var rest := Split(s[1..], sep);
      JoinSplit(s[1..], sep);
      if s[0] == sep {
        assert Split(s, sep) == [""] + rest;
      } else {
        var parts := Split(s, sep);
        assert parts == [[s[0]] + rest[0]] + rest[1..];
        if |rest| == 1 {
          assert Join(parts, sep) == [s[0]] + rest[0];
        } else {
          assert parts[1..] == rest[1..];
          assert Join(rest, sep) == rest[0] + [sep] + Join(rest[1..], sep);
        }
      }
    }
  }

  /** No part of a split contains the separator. */
  lemma {:induction false} SplitPartsFree(s: string, sep: char)
    ensures forall p, i :: p in Split(s, sep) && 0 <= i < |p| ==> p[i] != sep
  {
    if s != [] {
      SplitPartsFree(s[1..], sep);
      var rest := Split(s[1..], sep);
      if s[0] != sep {
        forall p, i | p in Split(s, sep) && 0 <= i < |p| ensures p[i] != sep {
          if p == [s[0]] + rest[0] {
            if i > 0 { assert p[i] == rest[0][i - 1]; }
          } else {
            assert p in rest[1..];
          }
        }
      }
    }
  }

  /** A string without the separator splits into itself. */
  lemma {:induction false} SplitFree(s: string, sep: char)
    requires forall i :: 0 <= i < |s| ==> s[i] != sep
    ensures Split(s, sep) == [s]
  {
    if s != [] {
      SplitFree(s[1..], sep);
      assert [s[0]] + s[1..] == s;
    }
  }

  /** Two separator-free strings around one separator split back into the two. */
  lemma {:induction false} SplitAt(a: string, b: string, sep: char)
    requires forall i :: 0 <= i < |a| ==> a[i] != sep
    requires forall i :: 0 <= i < |b| ==> b[i] != sep
    ensures Split(a + [sep] + b, sep) == [a, b]
  {
    var s := a + [sep] + b;
    if a == [] {
      assert s == [sep] + b && s[1..] == b;
      SplitFree(b, sep);
    } else {
      assert s[1..] == a[1..] + [sep] + b;
      SplitAt(a[1..], b, sep);
      assert [a[0]] + a[1..] == a;
    }
  }

  /** The last `/`-separated segment, `s.split("/")[-1]`. */
  function LastSegment(s: string, sep: char): (r: string)
    ensures forall i :: 0 <= i < |r| ==> r[i] != sep
  {
    var parts := Split(s, sep);
    SplitPartsFree(s, sep);
    assert parts[|parts| - 1] in parts;
    parts[|parts| - 1]
  }

  /** A string that splits into one part is that part. */
  lemma {:induction false} SplitSingle(s: string, sep: char)
    ensures |Split(s, sep)| == 1 ==> Split(s, sep)[0] == s
  {
    if s != [] {
      SplitSingle(s[1..], sep);
      var rest := Split(s[1..], sep);
      if s[0] != sep && |rest| == 1 {
        assert Split(s, sep)[0] == [s[0]] + rest[0];
        assert s == [s[0]] + s[1..];
      }
    }
  }

  /** With more than one part, the last part is the last part of the tail's split. */
  lemma SplitLastOfTail(s: string, sep: char)
    requires |Split(s, sep)| > 1
    ensures s != [] && LastSegment(s, sep) == LastSegment(s[1..], sep)
  {
    assert s != [];
    var parts, rest := Split(s, sep), Split(s[1..], sep);
    if s[0] == sep {
      assert parts == [""] + rest;
    } else {
      assert parts == [[s[0]] + rest[0]] + rest[1..];
    }
    assert parts[|parts| - 1] == rest[|rest| - 1];
  }

  /** The last segment is a suffix of the string, and what precedes it ends with the separator. */
  lemma {:induction false} LastSegmentSuffix(s: string, sep: char)
    ensures var r := LastSegment(s, sep);
      && |r| <= |s| && s[|s| - |r|..] == r && (|r| < |s| ==> s[|s| - |r| - 1] == sep)
    decreases |s|, 1
  {
    var r := LastSegment(s, sep);
    if |Split(s, sep)| == 1 {
      SplitSingle(s, sep);
    } else {
      SplitLastOfTail(s, sep);
      LastSegmentSuffix(s[1..], sep);
      assert s[|s| - |r|..] == s[1..][|s| - 1 - |r|..];
      if s[0] != sep {
        assert |Split(s[1..], sep)| > 1;
        ManyPartsShorter(s[1..], sep);
      }
    }
  }

  /** A string with a separator to split at is longer than its last segment. */
  lemma {:induction false} ManyPartsShorter(s: string, sep: char)
    requires |Split(s, sep)| > 1
    ensures |LastSegment(s, sep)| < |s|
    decreases |s|, 0
  {
    SplitLastOfTail(s, sep);
    LastSegmentSuffix(s[1..], sep);
  }

  /** The last segment is the whole string exactly when the string has no separator to split at. */
  lemma LastSegmentWhole(s: string, sep: char)
    ensures |Split(s, sep)| == 1 <==> LastSegment(s, sep) == s
  {
    if |Split(s, sep)| == 1 {
      SplitSingle(s, sep);
    } else {
      ManyPartsShorter(s, sep);
    }
  }
}
