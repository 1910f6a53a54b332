/** String helpers with the exact behaviour of the JavaScript and Python built-ins the
    repository calls: `trim`, `split`, `join`, `lower`, `in` on strings, `str.title`,
    `s.split()[0]` and decimal rendering of counts. */
module Text {
  import opened Wrappers

  /** The WhiteSpace and LineTerminator characters of ECMAScript: what `String.prototype.trim`
      removes from both ends. */
  predicate IsJsSpace(c: char) {
    c == '\t' || c == '\n' || c == '\U{B}' || c == '\U{C}' || c == '\r' || c == ' '
    || c == '\U{A0}' || c == '\U{1680}' || ('\U{2000}' <= c <= '\U{200A}')
    || c == '\U{2028}' || c == '\U{2029}' || c == '\U{202F}' || c == '\U{205F}'
    || c == '\U{3000}' || c == '\U{FEFF}'
  }

  /** Python's `str.isspace` for one character. */
  predicate IsPySpace(c: char) {
    ('\t' <= c <= '\r') || ('\U{1C}' <= c <= '\U{1F}') || c == ' ' || c == '\U{85}'
    || c == '\U{A0}' || c == '\U{1680}' || ('\U{2000}' <= c <= '\U{200A}')
    || c == '\U{2028}' || c == '\U{2029}' || c == '\U{202F}' || c == '\U{205F}'
    || c == '\U{3000}'
  }

  predicate AllJsSpace(s: string) {
    forall i :: 0 <= i < |s| ==> IsJsSpace(s[i])
  }

  // ---------------------------------------------------------------- trim

  /** `s` is `r` at offset `k`, with only white space before and after it. */
  ghost predicate PaddedAt(s: string, k: int, r: string) {
    0 <= k <= |s| - |r| && s[k..k + |r|] == r
    && (forall i :: 0 <= i < k ==> IsJsSpace(s[i]))
    && (forall i :: k + |r| <= i < |s| ==> IsJsSpace(s[i]))
  }

  function TrimStart(s: string): (r: string)
    ensures |r| <= |s| && r == s[|s| - |r|..]
    ensures forall i :: 0 <= i < |s| - |r| ==> IsJsSpace(s[i])
    ensures r != [] ==> !IsJsSpace(r[0])
  {
    if s != [] && IsJsSpace(s[0]) then
      var r := TrimStart(s[1..]);
      assert r == s[|s| - |r|..] by {
        assert s[1..][|s| - 1 - |r|..] == s[|s| - |r|..];
      }
      assert forall i :: 1 <= i < |s| - |r| ==> IsJsSpace(s[i]) by {
        forall i | 1 <= i < |s| - |r| ensures IsJsSpace(s[i]) {
          assert s[i] == s[1..][i - 1];
        }
      }
      r
    else s
  }

  function TrimEnd(s: string): (r: string)
    ensures |r| <= |s| && r == s[..|r|]
    ensures forall i :: |r| <= i < |s| ==> IsJsSpace(s[i])
    ensures r != [] ==> !IsJsSpace(r[|r| - 1])
  {
    if s != [] && IsJsSpace(s[|s| - 1]) then
      var r := TrimEnd(s[..|s| - 1]);
      assert r == s[..|r|] by {
        assert s[..|s| - 1][..|r|] == s[..|r|];
      }
      assert forall i :: |r| <= i < |s| - 1 ==> IsJsSpace(s[i]) by {
        forall i | |r| <= i < |s| - 1 ensures IsJsSpace(s[i]) {
          assert s[i] == s[..|s| - 1][i];
        }
      }
      r
    else s
  }

  /** JavaScript's `s.trim()`: the infix of `s` left after removing every leading and trailing
      white-space character. What that infix is, and when it is empty, is stated by
      `TrimPadded`, `TrimEnds` and `TrimEmpty`. */
  function Trim(s: string): (r: string)
    ensures |r| <= |s|
  {
    TrimEnd(TrimStart(s))
  }

  /** Stripping a white-space prefix and then a white-space suffix leaves an infix padded
      by white space. */
  lemma PaddedInfix(s: string, t: string, r: string)
    requires |t| <= |s| && t == s[|s| - |t|..]
    requires forall i :: 0 <= i < |s| - |t| ==> IsJsSpace(s[i])
    requires |r| <= |t| && r == t[..|r|]
    requires forall i :: |r| <= i < |t| ==> IsJsSpace(t[i])
    ensures PaddedAt(s, |s| - |t|, r)
  {
    var k := |s| - |t|;
    assert s[k..k + |r|] == r;
    forall i | k + |r| <= i < |s| ensures IsJsSpace(s[i]) {
      assert s[i] == t[i - k];
    }
  }

  /** `Trim(s)` sits in `s` with only white space around it. */
  lemma TrimPadded(s: string)
    ensures PaddedAt(s, |s| - |TrimStart(s)|, Trim(s))
  {
    PaddedInfix(s, TrimStart(s), TrimEnd(TrimStart(s)));
  }

  /** `Trim(s)` neither starts nor ends with white space. */
  lemma TrimEnds(s: string)
    ensures Trim(s) != [] ==> !IsJsSpace(Trim(s)[0]) && !IsJsSpace(Trim(s)[|Trim(s)| - 1])
  {
    var t := TrimStart(s);
    var r := TrimEnd(t);
    if r != [] {
      assert r[0] == t[0];
    }
  }

  /** `Trim(s)` is empty exactly when `s` is all white space. */
  lemma TrimEmpty(s: string)
    ensures Trim(s) == [] <==> AllJsSpace(s)
  {
    var r := Trim(s);
    var k := |s| - |TrimStart(s)|;
    TrimPadded(s);
    TrimEnds(s);
    if r != [] {
      assert s[k] == r[0];
    }
  }

  // ---------------------------------------------------------------- split and join

  /** `s.split(sep)` for a one-character separator, as JavaScript and Python both define it:
      the pieces between separators, empty pieces included. */
  function Split(s: string, sep: char): (parts: seq<string>)
    ensures |parts| >= 1
    ensures forall p :: p in parts ==> sep !in p
  {
    if s == [] then [""]
    else
      var rest := Split(s[1..], sep);
      if s[0] == sep then [""] + rest
      else
        assert forall p :: p in rest[1..] ==> p in rest;
        [[s[0]] + rest[0]] + rest[1..]
  }

  /** `sep.join(parts)` (Python) or `parts.join(sep)` (JavaScript). */
  function Join(parts: seq<string>, sep: string): string {
    if |parts| == 0 then ""
    else if |parts| == 1 then parts[0]
    else parts[0] + sep + Join(parts[1..], sep)
  }

  function CountChar(s: string, c: char): nat {
    if s == [] then 0 else (if s[0] == c then 1 else 0) + CountChar(s[1..], c)
  }

  /** Splitting yields one piece more than there are separators. */
  lemma {:induction false} SplitCount(s: string, sep: char)
    ensures |Split(s, sep)| == CountChar(s, sep) + 1
  {
    if s != [] { SplitCount(s[1..], sep); }
  }

  /** Joining the pieces back with the separator restores the string. */
  lemma {:induction false} JoinSplit(s: string, sep: char)
    ensures Join(Split(s, sep), [sep]) == s
  {
    if s != [] {
      var rest := Split(s[1..], sep);
      JoinSplit(s[1..], sep);
      if s[0] == sep {
        assert Split(s, sep) == [""] + rest;
        assert Join([""] + rest, [sep]) == "" + [sep] + Join(rest, [sep]);
      } else if |rest| == 1 {
        assert Split(s, sep) == [[s[0]] + rest[0]];
      } else {
        var parts := [[s[0]] + rest[0]] + rest[1..];
        assert Split(s, sep) == parts;
        assert parts[1..] == rest[1..];
        assert Join(rest, [sep]) == rest[0] + [sep] + Join(rest[1..], [sep]);
      }
    }
  }

  lemma {:induction false} SplitNoSep(p: string, sep: char)
    requires sep !in p
    ensures Split(p, sep) == [p]
  {
    if p != [] {
      assert p[0] in p;
      SplitNoSep(p[1..], sep);
      assert [p[0]] + p[1..] == p;
    }
  }

  lemma {:induction false} SplitAfterPiece(p: string, sep: char, t: string)
    requires sep !in p
    ensures Split(p + [sep] + t, sep) == [p] + Split(t, sep)
  {
    if p == [] {
      assert p + [sep] + t == [sep] + t;
      assert ([sep] + t)[1..] == t;
    } else {
      assert (p + [sep] + t)[1..] == p[1..] + [sep] + t;
      SplitAfterPiece(p[1..], sep, t);
      assert [p[0]] + p[1..] == p;
    }
  }

  /** Splitting a join of separator-free pieces gives the pieces back. */
  lemma {:induction false} SplitJoin(parts: seq<string>, sep: char)
    requires |parts| >= 1
    requires forall p :: p in parts ==> sep !in p
    ensures Split(Join(parts, [sep]), sep) == parts
  {
    if |parts| == 1 {
      SplitNoSep(parts[0], sep);
    } else {
      assert parts[0] in parts;
      assert forall p :: p in parts[1..] ==> p in parts;
      SplitJoin(parts[1..], sep);
      SplitAfterPiece(parts[0], sep, Join(parts[1..], [sep]));
    }
  }

  // ---------------------------------------------------------------- case and search

  /** ASCII lower-casing of one character. */
  function LowerChar(c: char): char {
    if 'A' <= c <= 'Z' then (c as int + 32) as char else c
  }

  function UpperChar(c: char): char {
    if 'a' <= c <= 'z' then (c as int - 32) as char else c
  }

  predicate IsAsciiLetter(c: char) {
    ('a' <= c <= 'z') || ('A' <= c <= 'Z')
  }

  /** Python's `s.lower()`, restricted to the ASCII letters. */
  function Lower(s: string): (r: string)
    ensures |r| == |s|
    ensures forall i :: 0 <= i < |s| ==> r[i] == LowerChar(s[i])
  {
    if s == [] then [] else [LowerChar(s[0])] + Lower(s[1..])
  }

  /** Python's `needle in hay` on strings: `needle` occurs in `hay` at some position. */
  predicate IsInfix(needle: string, hay: string)
    decreases |hay|
  {
    needle <= hay || (hay != [] && IsInfix(needle, hay[1..]))
  }

  /** Character `i` of a title-cased text: a non-letter is kept, a letter is lower case after
      a letter and upper case otherwise; `afterLetter` tells whether the character before the
      text was a letter. */
  function TitledAt(s: string, i: int, afterLetter: bool): char
    requires 0 <= i < |s|
  {
    if !IsAsciiLetter(s[i]) then s[i]
    else if (if i == 0 then afterLetter else IsAsciiLetter(s[i - 1])) then LowerChar(s[i])
    else UpperChar(s[i])
  }

  /** Python's `str.title()` on ASCII text: the first letter of every run of letters is upper
      case, the other letters are lower case. */
  function Title(s: string): (r: string)
    ensures |r| == |s|
    ensures forall i :: 0 <= i < |s| ==> r[i] == TitledAt(s, i, false)
  {
    TitleAfter(s, false)
  }

  /** `Title` of the rest of a text, `afterLetter` telling whether the character before it
      was a letter. */
  function TitleAfter(s: string, afterLetter: bool): (r: string)
    ensures |r| == |s|
    ensures forall i :: 0 <= i < |s| ==> r[i] == TitledAt(s, i, afterLetter)
  {
    if s == [] then []
    else
      var c := s[0];
      var out := if !IsAsciiLetter(c) then c else if afterLetter then LowerChar(c) else UpperChar(c);
      var rest := TitleAfter(s[1..], IsAsciiLetter(c));
      var r := [out] + rest;
      assert r[0] == TitledAt(s, 0, afterLetter);
      forall i | 1 <= i < |s| ensures r[i] == TitledAt(s, i, afterLetter) {
        assert r[i] == rest[i - 1] == TitledAt(s[1..], i - 1, IsAsciiLetter(c));
        assert s[1..][i - 1] == s[i];
        if i > 1 { assert s[1..][i - 2] == s[i - 1]; }
      }
      r
  }

  /** Changing the case of a character keeps it a letter or a non-letter. */
  lemma CaseKeepsLetters(c: char)
    ensures IsAsciiLetter(LowerChar(c)) == IsAsciiLetter(c)
    ensures IsAsciiLetter(UpperChar(c)) == IsAsciiLetter(c)
    ensures IsAsciiLetter(c) ==> LowerChar(LowerChar(c)) == LowerChar(c) && UpperChar(UpperChar(c)) == UpperChar(c)
    ensures IsAsciiLetter(c) ==> LowerChar(UpperChar(c)) == LowerChar(c) && UpperChar(LowerChar(c)) == UpperChar(c)
  {
  }

  /** Title-casing keeps which characters are letters, so doing it twice changes nothing. */
  lemma TitleIdempotent(s: string)
    ensures Title(Title(s)) == Title(s)
  {
    var t := Title(s);
    var u := Title(t);
    forall i | 0 <= i < |s| ensures IsAsciiLetter(t[i]) == IsAsciiLetter(s[i]) {
      CaseKeepsLetters(s[i]);
    }
    forall i | 0 <= i < |s| ensures u[i] == t[i] {
      CaseKeepsLetters(s[i]);
      assert t[i] == TitledAt(s, i, false) && u[i] == TitledAt(t, i, false);
    }
  }

  // ---------------------------------------------------------------- words and numbers

  function TakeWord(s: string): (w: string)
    ensures w <= s
    ensures forall i :: 0 <= i < |w| ==> !IsPySpace(w[i])
    ensures |w| < |s| ==> IsPySpace(s[|w|])
  {
    if s == [] || IsPySpace(s[0]) then [] else [s[0]] + TakeWord(s[1..])
  }

  /** Python's `s.split()[0]`: the first run of non-space characters. `None` stands for the
      `IndexError` Python raises when `s` holds no such character. */
  function FirstWord(s: string): (r: Option<string>)
    ensures r.Some? <==> exists i :: 0 <= i < |s| && !IsPySpace(s[i])
    ensures r.Some? ==> r.value != [] && forall i :: 0 <= i < |r.value| ==> !IsPySpace(r.value[i])
  {
    if s == [] then None
    else if IsPySpace(s[0]) then
      var r := FirstWord(s[1..]);
      assert (exists i :: 0 <= i < |s| && !IsPySpace(s[i])) ==> exists i :: 0 <= i < |s[1..]| && !IsPySpace(s[1..][i]) by {
        if exists i :: 0 <= i < |s| && !IsPySpace(s[i]) {
          var i :| 0 <= i < |s| && !IsPySpace(s[i]);
          assert s[1..][i - 1] == s[i];
        }
      }
      assert (exists i :: 0 <= i < |s[1..]| && !IsPySpace(s[1..][i])) ==> exists i :: 0 <= i < |s| && !IsPySpace(s[i]) by {
        if exists i :: 0 <= i < |s[1..]| && !IsPySpace(s[1..][i]) {
          var i :| 0 <= i < |s[1..]| && !IsPySpace(s[1..][i]);
          assert s[i + 1] == s[1..][i];
        }
      }
      r
    else Some(TakeWord(s))
  }

  /** The number of white-space characters `s` starts with. */
  function LeadingSpaces(s: string): (n: nat)
    ensures n <= |s|
    ensures forall j :: 0 <= j < n ==> IsPySpace(s[j])
    ensures n < |s| ==> !IsPySpace(s[n])
  {
    if s == [] || !IsPySpace(s[0]) then 0 else 1 + LeadingSpaces(s[1..])
  }

  /** The word `FirstWord` finds is the one that starts at the first non-space character,
      and there is one exactly when such a character exists. */
  lemma {:induction false} FirstWordIsFirst(s: string)
    ensures FirstWord(s).Some? <==> LeadingSpaces(s) < |s|
    ensures FirstWord(s).Some? ==> FirstWord(s).value == TakeWord(s[LeadingSpaces(s)..])
  {
    if s != [] && IsPySpace(s[0]) {
      FirstWordIsFirst(s[1..]);
      assert s[1..][LeadingSpaces(s[1..])..] == s[LeadingSpaces(s)..];
    }
  }

  function DigitChar(d: nat): char
    requires d < 10
  {
    "0123456789"[d]
  }

  /** Decimal rendering of a count, as Python's f-strings and JavaScript's template strings
      print a non-negative integer. */
  function NatToString(n: nat): (s: string)
    ensures s != []
  {
    if n < 10 then [DigitChar(n)] else NatToString(n / 10) + [DigitChar(n % 10)]
  }
}
