/**
 * Python string operations the extractors rely on, over `string` = `seq<char>`.
 * Letters, digits, word characters and case mapping are ASCII; whitespace is the
 * set of characters for which Python's `str.isspace` holds.
 */
module Text {

  /** Python `str.isspace` for one character. */
  predicate IsSpace(c: char) {
    c == ' ' || ('\t' <= c <= '\r') || ('\U{1C}' <= c <= '\U{1F}') || c == '\U{85}' || c == '\U{A0}'
    || c == '\U{1680}' || ('\U{2000}' <= c <= '\U{200A}') || c == '\U{2028}' || c == '\U{2029}'
    || c == '\U{202F}' || c == '\U{205F}' || c == '\U{3000}'
  }

  /** A set of characters to strip, optionally with all whitespace (a class such as `[\s,.;:]`). */
  datatype CharSet = CharSet(chars: set<char>, space: bool) {
    predicate Has(c: char) { c in chars || (space && IsSpace(c)) }
  }

  /** Characters at which Python's `str.splitlines` breaks a line. */
  predicate IsLineBreak(c: char) {
    c == '\n' || c == '\r' || c == '\U{0B}' || c == '\U{0C}' || ('\U{1C}' <= c <= '\U{1E}')
    || c == '\U{85}' || c == '\U{2028}' || c == '\U{2029}'
  }

  predicate IsDigit(c: char) { '0' <= c <= '9' }
  predicate IsUpper(c: char) { 'A' <= c <= 'Z' }
  predicate IsLower(c: char) { 'a' <= c <= 'z' }
  predicate IsLetter(c: char) { IsUpper(c) || IsLower(c) }
  predicate IsAlnum(c: char) { IsLetter(c) || IsDigit(c) }
  /** A regex word character (`\w`). */
  predicate IsWordChar(c: char) { IsAlnum(c) || c == '_' }

  function ToLower(c: char): char {
    if IsUpper(c) then (c as int + 32) as char else c
  }

  function ToUpper(c: char): char {
    if IsLower(c) then (c as int - 32) as char else c
  }

  /** Python `s.lower()`. */
  function Lower(s: string): (r: string)
    ensures |r| == |s|
    ensures forall k :: 0 <= k < |s| ==> r[k] == ToLower(s[k])
  {
    if s == [] then [] else [ToLower(s[0])] + Lower(s[1..])
  }

  /** Text without capitals is its own lower-case form. */
  lemma LowerKeeps(w: string)
    requires forall k :: 0 <= k < |w| ==> !IsUpper(w[k])
    ensures Lower(w) == w
  {
  }

  /** A capitalised word lower-cases to its first letter lower-cased and the rest as it is. */
  lemma LowerCapital(w: string)
    requires w != [] && forall k :: 1 <= k < |w| ==> !IsUpper(w[k])
    ensures Lower(w) == [ToLower(w[0])] + w[1..]
  {
    assert Lower(w) == [ToLower(w[0])] + Lower(w[1..]);
    LowerKeeps(w[1..]);
  }

  /** Python `s.upper()`. */
  function Upper(s: string): (r: string)
    ensures |r| == |s|
    ensures forall k :: 0 <= k < |s| ==> r[k] == ToUpper(s[k])
  {
    if s == [] then [] else [ToUpper(s[0])] + Upper(s[1..])
  }

  /** Two texts that are equal when case is ignored. */
  predicate SameIgnoringCase(a: string, b: string) {
    Lower(a) == Lower(b)
  }

  /** Python `s.lstrip(chars)`; with `cs.space` also the removal of a leading `[...\s]+` run. */
  function LStripSet(s: string, cs: CharSet): (r: string)
    ensures r == [] || !cs.Has(r[0])
    ensures |r| <= |s| && r == s[|s| - |r|..]
  {
    if s != [] && cs.Has(s[0]) then LStripSet(s[1..], cs) else s
  }

  /** Python `s.rstrip(chars)`; with `cs.space` also the removal of a trailing `[...\s]+$` run. */
  function RStripSet(s: string, cs: CharSet): (r: string)
    ensures r == [] || !cs.Has(r[|r| - 1])
    ensures |r| <= |s| && r == s[..|r|]
  {
    if s != [] && cs.Has(s[|s| - 1]) then RStripSet(s[..|s| - 1], cs) else s
  }

  /** Python `s.strip(chars)`. */
  function StripSet(s: string, cs: CharSet): string {
    RStripSet(LStripSet(s, cs), cs)
  }

  /** Python `s.lstrip()`. */
  function LStrip(s: string): (r: string)
    ensures r == [] || !IsSpace(r[0])
    ensures |r| <= |s|
  {
    if s != [] && IsSpace(s[0]) then LStrip(s[1..]) else s
  }

  /** `lstrip` keeps a suffix. */
  lemma {:induction false} LStripSuffix(s: string)
    ensures LStrip(s) == s[|s| - |LStrip(s)|..]
    decreases |s|
  {
    if s != [] && IsSpace(s[0]) {
      LStripSuffix(s[1..]);
    }
  }

  /** `lstrip` drops exactly a leading run of `r` whitespace characters that is not followed by whitespace. */
  lemma {:induction false} LStripRun(t: string, r: nat)
    requires r <= |t| && (forall k :: 0 <= k < r ==> IsSpace(t[k])) && (r == |t| || !IsSpace(t[r]))
    ensures LStrip(t) == t[r..]
    decreases r
  {
    if r > 0 {
      assert IsSpace(t[0]);
      forall k | 0 <= k < r - 1 ensures IsSpace(t[1..][k]) {
        assert t[1..][k] == t[k + 1];
      }
      LStripRun(t[1..], r - 1);
      assert t[1..][r - 1..] == t[r..];
    }
  }

  /** Python `s.rstrip()`. */
  function RStrip(s: string): (r: string)
    ensures r == [] || !IsSpace(r[|r| - 1])
    ensures |r| <= |s|
  {
    if s != [] && IsSpace(s[|s| - 1]) then RStrip(s[..|s| - 1]) else s
  }

  /** `rstrip` keeps a prefix. */
  lemma {:induction false} RStripPrefix(s: string)
    ensures RStrip(s) == s[..|RStrip(s)|]
    decreases |s|
  {
    if s != [] && IsSpace(s[|s| - 1]) {
      RStripPrefix(s[..|s| - 1]);
    }
  }

  /** Python `s.strip()`. */
  function Strip(s: string): string {
    RStrip(LStrip(s))
  }

  /** Stripping leaves no whitespace at either end and keeps a contiguous piece. */
  lemma StripEnds(s: string)
    ensures var t := Strip(s); t == [] || (!IsSpace(t[0]) && !IsSpace(t[|t| - 1]))
    ensures IsInfix(Strip(s), s)
  {
    var l := LStrip(s);
    var t := RStrip(l);
    LStripSuffix(s);
    RStripPrefix(l);
    assert s[|s| - |l|..][..|t|] == t;
    assert s[|s| - |l|..|s| - |l| + |t|] == t;
  }

  /** Where the stripped text sits in the original. */
  lemma StripSlice(s: string) returns (i: nat, j: nat)
    ensures i <= j <= |s| && Strip(s) == s[i..j]
  {
    var l := LStrip(s);
    LStripSuffix(s);
    i := |s| - |l|;
    var t := RStrip(l);
    RStripPrefix(l);
    j := i + |t|;
    PrefixOfSuffix(s, i, |t|);
  }

  lemma PrefixOfSuffix(s: string, i: nat, k: nat)
    requires i + k <= |s|
    ensures s[i..][..k] == s[i..i + k]
  {
  }

  /** Stripping only removes characters: one absent from `s` is absent from `Strip(s)`. */
  lemma StripKeepsOut(s: string, c: char)
    requires c !in s
    ensures c !in Strip(s)
  {
    var i, j := StripSlice(s);
    assert forall n :: 0 <= n < j - i ==> s[i..j][n] == s[i + n];
  }

  /** A slice of a slice is a slice of the original. */
  lemma SliceOfSlice(s: string, i: nat, j: nat, a: nat, b: nat)
    requires i <= j <= |s| && a <= b <= j - i
    ensures s[i..j][a..b] == s[i + a..i + b]
  {
    forall x | 0 <= x < b - a
      ensures s[i..j][a..b][x] == s[i + a..i + b][x]
    {
    }
  }

  /** Text with no whitespace at either end is its own strip. */
  lemma StripUnpadded(s: string)
    requires s != [] && !IsSpace(s[0]) && !IsSpace(s[|s| - 1])
    ensures Strip(s) == s
  {
  }

  /** Stripping twice is stripping once. */
  lemma StripIdempotent(s: string)
    ensures Strip(Strip(s)) == Strip(s)
  {
    StripEnds(s);
  }

  /** Decimal text of a natural number, as Python's `str(n)`. */
  function NatToString(n: nat): (r: string)
    ensures |r| > 0 && forall k :: 0 <= k < |r| ==> IsDigit(r[k])
  {
    if n < 10 then [('0' as int + n) as char] else NatToString(n / 10) + [('0' as int + n % 10) as char]
  }

  /** Value of a decimal digit (0 for any other character). */
  function DigitValue(c: char): nat {
    if IsDigit(c) then c as int - '0' as int else 0
  }

  /** Value of a run of decimal digits, as Python's `int(s)` (only applied to digit runs). */
  function ParseNat(s: string): nat {
    if s == [] then 0 else 10 * ParseNat(s[..|s| - 1]) + DigitValue(s[|s| - 1])
  }

  /** `int(str(n)) == n`. */
  lemma {:induction false} ParseNatToString(n: nat)
    ensures ParseNat(NatToString(n)) == n
  {
    if n >= 10 {
      var t := NatToString(n);
      assert t[..|t| - 1] == NatToString(n / 10);
      ParseNatToString(n / 10);
    }
  }

  /** `t` occurs in `s` at position `i`. */
  predicate OccursAt(s: string, t: string, i: nat) {
    i + |t| <= |s| && s[i..i + |t|] == t
  }

  /** Python `t in s`. */
  predicate Contains(s: string, t: string)
    decreases |s|
  {
    |t| <= |s| && (s[..|t|] == t || Contains(s[1..], t))
  }

  /** What a prefix contains, the whole text contains. */
  lemma {:induction false} ContainsExtend(a: string, b: string, t: string)
    requires Contains(a, t) && |a| <= |b| && b[..|a|] == a
    ensures Contains(b, t)
    decreases |a|
  {
    if a[..|t|] != t {
      ContainsExtend(a[1..], b[1..], t);
    }
  }

  /** What a text contains case aside, a text that starts with it case aside also contains. */
  lemma ContainsLowerPrefix(w: string, caption: string, t: string)
    requires Contains(Lower(w), t) && |w| <= |caption| && Lower(caption[..|w|]) == Lower(w)
    ensures Contains(Lower(caption), t)
  {
    LowerPrefix(caption, |w|);
    ContainsExtend(Lower(w), Lower(caption), t);
  }

  /** Python `any(key in text.lower() for key in keys)`. */
  predicate HasKeyword(text: string, keys: seq<string>) {
    exists key :: key in keys && Contains(Lower(text), key)
  }

  /** A keyword found in a text is found in any text that starts with it, case aside. */
  lemma HasKeywordExtend(w: string, caption: string, keys: seq<string>)
    requires HasKeyword(w, keys) && |w| <= |caption| && Lower(caption[..|w|]) == Lower(w)
    ensures HasKeyword(caption, keys)
  {
    var key :| key in keys && Contains(Lower(w), key);
    ContainsLowerPrefix(w, caption, key);
  }

  /** A keyword that occurs, case aside, at some place in a text is found in it. */
  lemma KeywordAt(w: string, piece: string, i: nat, keys: seq<string>, n: nat)
    requires OccursAt(w, piece, i) && n < |keys| && Lower(piece) == keys[n]
    ensures HasKeyword(w, keys)
  {
    LowerOccurs(w, piece, i);
  }

  /** An occurrence anywhere is containment. */
  lemma {:induction false} OccursContains(s: string, t: string, i: nat)
    requires OccursAt(s, t, i)
    ensures Contains(s, t)
    decreases i
  {
    if i > 0 {
      assert s[1..][i - 1..i - 1 + |t|] == s[i..i + |t|];
      OccursContains(s[1..], t, i - 1);
    }
  }

  /** A piece of `w`, lower-cased, is contained in `w` lower-cased. */
  lemma LowerOccurs(w: string, piece: string, i: nat)
    requires OccursAt(w, piece, i)
    ensures Contains(Lower(w), Lower(piece))
  {
    assert Lower(w)[i..i + |piece|] == Lower(piece);
    OccursContains(Lower(w), Lower(piece), i);
  }

  /** Lower-casing commutes with taking a prefix. */
  lemma LowerPrefix(s: string, n: nat)
    requires n <= |s|
    ensures Lower(s[..n]) == Lower(s)[..n]
  {
  }

  predicate StartsWith(s: string, t: string) {
    |t| <= |s| && s[..|t|] == t
  }

  /** `t` is a contiguous piece of `s`. */
  ghost predicate IsInfix(t: string, s: string) {
    exists i, j :: 0 <= i <= j <= |s| && s[i..j] == t
  }

  /** Index of the first line break in `s`, or `|s|`. */
  function FirstBreak(s: string): (k: nat)
    ensures k <= |s|
    ensures forall j :: 0 <= j < k ==> !IsLineBreak(s[j])
    ensures k < |s| ==> IsLineBreak(s[k])
  {
    if s == [] || IsLineBreak(s[0]) then 0 else 1 + FirstBreak(s[1..])
  }

  /** Python `s.splitlines()`: no trailing empty line, "\r\n" is one break. */
  function SplitLines(s: string): seq<string>
    decreases |s|
  {
    if s == [] then []
    else
      var k := FirstBreak(s);
      if k == |s| then [s]
      else
        var next := if s[k] == '\r' && k + 1 < |s| && s[k + 1] == '\n' then k + 2 else k + 1;
        [s[..k]] + SplitLines(s[next..])
  }

  /** Index of the first `c` in `s`, or `|s|`. */
  function IndexOfChar(s: string, c: char): (k: nat)
    ensures k <= |s|
    ensures forall j :: 0 <= j < k ==> s[j] != c
    ensures k < |s| ==> s[k] == c
  {
    if s == [] || s[0] == c then 0 else 1 + IndexOfChar(s[1..], c)
  }

  /** Python `s.split(sep)` for a one-character separator: never empty. */
  function SplitOn(s: string, sep: char): (r: seq<string>)
    ensures |r| > 0
    decreases |s|
  {
    var k := IndexOfChar(s, sep);
    if k == |s| then [s] else [s[..k]] + SplitOn(s[k + 1..], sep)
  }

  /** Python `s.split()` (no argument): the maximal runs of non-space characters. */
  function SplitWords(s: string): (r: seq<string>)
    ensures forall k :: 0 <= k < |r| ==> r[k] != []
    ensures forall k :: 0 <= k < |r| ==> Unspaced(r[k])
    decreases |s|
  {
    var t := LStrip(s);
    if t == [] then []
    else
      var k := FirstSpace(t);
      assert k > 0 by { assert !IsSpace(t[0]); }
      [t[..k]] + SplitWords(t[k..])
  }

  /** No character of `w` is whitespace. */
  predicate Unspaced(w: string) {
    forall j :: 0 <= j < |w| ==> !IsSpace(w[j])
  }

  /** Index of the first whitespace character in `s`, or `|s|`. */
  function FirstSpace(s: string): (k: nat)
    ensures k <= |s|
    ensures forall j :: 0 <= j < k ==> !IsSpace(s[j])
    ensures k < |s| ==> IsSpace(s[k])
  {
    if s == [] || IsSpace(s[0]) then 0 else 1 + FirstSpace(s[1..])
  }

  /** Python `sep.join(parts)`. */
  function Join(parts: seq<string>, sep: string): string {
    if parts == [] then []
    else if |parts| == 1 then parts[0]
    else parts[0] + sep + Join(parts[1..], sep)
  }

  /** The first `n` elements (Python `xs[:n]`). */
  function Take<T>(xs: seq<T>, n: nat): (r: seq<T>)
    ensures |r| <= n && |r| <= |xs| && r == xs[..|r|]
  {
    if n <= |xs| then xs[..n] else xs
  }

  /** A single word splits into itself. */
  lemma SingleWord(w: string)
    requires w != [] && Unspaced(w)
    ensures SplitWords(w) == [w]
  {
    assert LStrip(w) == w;
    assert FirstSpace(w) == |w|;
    assert w[..|w|] == w;
    assert SplitWords(w[|w|..]) == [] by { assert w[|w|..] == []; }
  }

  /** Two words joined by one space split back into the two. */
  lemma SplitTwo(a: string, b: string)
    requires a != [] && Unspaced(a)
    requires b != [] && Unspaced(b)
    ensures SplitWords(a + " " + b) == [a, b]
  {
    assert a + " " + b == a + ([' '] + b);
    SplitFirst(a, [' '] + b);
    SplitSkipsSpace(' ', b);
    SingleWord(b);
  }

  /** A word followed by whitespace is the first word of the split. */
  lemma SplitFirst(a: string, rest: string)
    requires a != [] && Unspaced(a)
    requires rest != [] && IsSpace(rest[0])
    ensures SplitWords(a + rest) == [a] + SplitWords(rest)
  {
    var s := a + rest;
    assert LStrip(s) == s by { assert s[0] == a[0]; }
    FirstSpaceAt(s, |a|);
    assert s[..|a|] == a;
    assert s[|a|..] == rest;
  }

  /** Leading whitespace does not change the split. */
  lemma SplitSkipsSpace(c: char, rest: string)
    requires IsSpace(c)
    ensures SplitWords([c] + rest) == SplitWords(rest)
  {
    assert ([c] + rest)[1..] == rest;
    assert LStrip([c] + rest) == LStrip(rest);
  }

  /** The first whitespace character is found where it is. */
  lemma FirstSpaceAt(s: string, n: nat)
    requires n < |s| && IsSpace(s[n]) && forall j :: 0 <= j < n ==> !IsSpace(s[j])
    ensures FirstSpace(s) == n
  {
  }
}
