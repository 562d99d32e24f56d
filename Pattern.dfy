/**
 * Regular-expression patterns as data, and their meaning under Python's `re`
 * backtracking rules, for exactly the constructs the extraction rules use.
 *
 * `Ends(p, s, i, ci)` lists the positions at which `p` can finish when started at
 * `i` in `s`, in the order a backtracking matcher reaches them: greedy repetition
 * tries the longest run first, lazy repetition the shortest, and alternatives are
 * tried left to right with an optional group tried before it is skipped. The
 * first entry is where Python's match ends; `FirstSplit` gives the group
 * boundaries of that first successful path. `ci` is `re.IGNORECASE`.
 */
module Pattern {
  import opened Wrappers
  import opened Text

  /** One member of a bracketed character class. */
  datatype Item = Ch(c: char) | Range(lo: char, hi: char) | SpaceItem | DigitItem | WordItem

  /** A character class `[...]` or `[^...]`; shorthands such as `\s` or `.` are classes too. */
  datatype Cls = Cls(items: seq<Item>, negated: bool)

  datatype Tok =
    | Lit(text: string)                                  // literal characters
    | Rep(cls: Cls, lo: nat, hi: Option<nat>, lazy: bool) // cls{lo,hi}, greedy or lazy
    | Cat(toks: seq<Tok>)                                 // (?:...), a sequence used as one unit
    | Group(alts: seq<Tok>, optional: bool)               // (?:a|b|...) or (?:a|b|...)?
    | Look(sub: seq<Tok>, positive: bool)                 // (?=...) or (?!...)
    | Bol(multiline: bool)                                // ^
    | Eol(multiline: bool)                                // $
    | WordBoundary                                        // \b

  // ---- character classes ----

  predicate ItemHas(it: Item, c: char) {
    match it
    case Ch(d) => c == d
    case Range(lo, hi) => lo <= c <= hi
    case SpaceItem => IsSpace(c)
    case DigitItem => IsDigit(c)
    case WordItem => IsWordChar(c)
  }

  predicate ItemsHave(items: seq<Item>, c: char) {
    items != [] && (ItemHas(items[0], c) || ItemsHave(items[1..], c))
  }

  /** Under IGNORECASE a character is in a class when it or its other case is. */
  predicate InClass(cls: Cls, c: char, ci: bool) {
    (ItemsHave(cls.items, c) || (ci && (ItemsHave(cls.items, ToLower(c)) || ItemsHave(cls.items, ToUpper(c)))))
      != cls.negated
  }

  const Space := Cls([SpaceItem], false)            // \s
  const Digit := Cls([DigitItem], false)            // \d
  const NotWord := Cls([WordItem], true)            // \W
  const NotNewline := Cls([Ch('\n')], true)         // . and [^\n]
  const AnyChar := Cls([], true)                    // . under DOTALL

  function Chars(cs: string): Cls { Cls(seq(|cs|, k requires 0 <= k < |cs| => Ch(cs[k])), false) }
  function NotChars(cs: string): Cls { Cls(seq(|cs|, k requires 0 <= k < |cs| => Ch(cs[k])), true) }

  const Ws0 := Rep(Space, 0, None, false)           // \s*
  const Ws1 := Rep(Space, 1, None, false)           // \s+
  const AnyRun := Rep(NotNewline, 0, None, false)   // .*
  const AnyRun1 := Rep(NotNewline, 1, None, false)  // .+
  const Digits1 := Rep(Digit, 1, None, false)       // \d+

  /** Exactly one character of `cls`. */
  function One(cls: Cls): Tok { Rep(cls, 1, Some(1), false) }
  /** An optional character of `cls` (`x?`). */
  function Maybe(cls: Cls): Tok { Rep(cls, 0, Some(1), false) }
  /** `(?:a|b|...)` */
  function AnyOf(alts: seq<seq<Tok>>): Tok { Group(seq(|alts|, k requires 0 <= k < |alts| => Cat(alts[k])), false) }
  /** `(?:...)?` */
  function Opt(sub: seq<Tok>): Tok { Group([Cat(sub)], true) }

  /** Words joined by `\s+`: `Phrase(["Product", "Name"])` is `Product\s+Name`. */
  function Phrase(words: seq<string>): seq<Tok> {
    if words == [] then []
    else if |words| == 1 then [Lit(words[0])]
    else [Lit(words[0]), Ws1] + Phrase(words[1..])
  }

  // ---- size measure for termination ----

  function TokSize(t: Tok): (n: nat)
    ensures n >= 1
  {
    match t
    case Cat(toks) => 1 + SeqSize(toks)
    case Group(alts, _) => 1 + SeqSize(alts)
    case Look(sub, _) => 1 + SeqSize(sub)
    case _ => 1
  }

  function SeqSize(p: seq<Tok>): nat {
    if p == [] then 0 else TokSize(p[0]) + SeqSize(p[1..])
  }

  // ---- matching ----

  /** Length of the longest run of `cls` characters from `i`, capped by `hi`. */
  function Run(cls: Cls, s: string, i: nat, hi: Option<nat>, ci: bool): (m: nat)
    requires i <= |s|
    ensures i + m <= |s|
    ensures hi.Some? ==> m <= hi.value
    ensures forall k :: i <= k < i + m ==> InClass(cls, s[k], ci)
    ensures i + m < |s| && (hi.None? || m < hi.value) ==> !InClass(cls, s[i + m], ci)
    decreases |s| - i
  {
    if i == |s| || (hi.Some? && hi.value == 0) || !InClass(cls, s[i], ci) then 0
    else 1 + Run(cls, s, i + 1, if hi.Some? then Some(hi.value - 1) else None, ci)
  }

  /** The positions `a+lo .. a+hi` in backtracking order: descending when greedy. */
  function Counts(a: nat, lo: nat, hi: nat, lazy: bool): (r: seq<nat>)
    ensures forall k :: 0 <= k < |r| ==> a + lo <= r[k] <= a + hi
    decreases hi - lo
  {
    if hi < lo then []
    else if lo == hi then [a + lo]
    else if lazy then [a + lo] + Counts(a, lo + 1, hi, lazy)
    else [a + hi] + Counts(a, lo, hi - 1, lazy)
  }

  predicate WordAt(s: string, k: int) { 0 <= k < |s| && IsWordChar(s[k]) }

  /** Where `p` can end when started at `i`, in backtracking priority order. */
  function Ends(p: seq<Tok>, s: string, i: nat, ci: bool): (r: seq<nat>)
    requires i <= |s|
    ensures forall k :: 0 <= k < |r| ==> i <= r[k] <= |s|
    decreases SeqSize(p), 0
  {
    if p == [] then [i]
    else
      var rest := p[1..];
      assert SeqSize(p) == TokSize(p[0]) + SeqSize(rest);
      match p[0]
      case Lit(w) =>
        if LitAt(s, i, w, ci) then Ends(rest, s, i + |w|, ci) else []
      case Rep(cls, lo, hi, lazy) =>
        var m := Run(cls, s, i, hi, ci);
        if m < lo then [] else EndsEach(rest, s, i, Counts(i, lo, m, lazy), ci)
      case Cat(toks) =>
        EndsEach(rest, s, i, Ends(toks, s, i, ci), ci)
      case Group(alts, optional) =>
        EndsAlts(alts, rest, s, i, ci) + (if optional then Ends(rest, s, i, ci) else [])
      case Look(sub, positive) =>
        if (Ends(sub, s, i, ci) != []) == positive then Ends(rest, s, i, ci) else []
      case Bol(multiline) =>
        if i == 0 || (multiline && s[i - 1] == '\n') then Ends(rest, s, i, ci) else []
      case Eol(multiline) =>
        if i == |s| || (s[i] == '\n' && (multiline || i + 1 == |s|)) then Ends(rest, s, i, ci) else []
      case WordBoundary =>
        if WordAt(s, i - 1) != WordAt(s, i) then Ends(rest, s, i, ci) else []
  }

  /** `Ends` from each start in turn, concatenated. */
  function EndsEach(p: seq<Tok>, s: string, i: nat, starts: seq<nat>, ci: bool): (r: seq<nat>)
    requires forall k :: 0 <= k < |starts| ==> i <= starts[k] <= |s|
    ensures forall k :: 0 <= k < |r| ==> i <= r[k] <= |s|
    decreases SeqSize(p), 1, |starts|
  {
    if starts == [] then []
    else Ends(p, s, starts[0], ci) + EndsEach(p, s, i, starts[1..], ci)
  }

  /** Each alternative followed by `rest`, alternatives in order. */
  function EndsAlts(alts: seq<Tok>, rest: seq<Tok>, s: string, i: nat, ci: bool): (r: seq<nat>)
    requires i <= |s|
    ensures forall k :: 0 <= k < |r| ==> i <= r[k] <= |s|
    decreases SeqSize(alts) + SeqSize(rest), 2, |alts|
  {
    if alts == [] then []
    else
      assert ([alts[0]] + rest)[1..] == rest;
      Ends([alts[0]] + rest, s, i, ci) + EndsAlts(alts[1..], rest, s, i, ci)
  }

  /** Two characters are the same, ignoring ASCII case under IGNORECASE. */
  predicate SameChar(a: char, b: char, ci: bool) {
    a == b || (ci && ToLower(a) == ToLower(b))
  }

  /** The literal `w` occurs in `s` at `i`. */
  predicate LitAt(s: string, i: nat, w: string, ci: bool)
    requires i <= |s|
    ensures LitAt(s, i, w, ci) ==> i + |w| <= |s|
    decreases |w|
  {
    if w == [] then true
    else i < |s| && SameChar(s[i], w[0], ci) && LitAt(s, i + 1, w[1..], ci)
  }

  // ---- the `re` entry points ----

  /** `re.match(p, s[i:])` succeeds at `i` (with `^` still seeing the whole of `s`). */
  predicate MatchesAt(p: seq<Tok>, s: string, i: nat, ci: bool)
    requires i <= |s|
  {
    Ends(p, s, i, ci) != []
  }

  /** `re.fullmatch(p, s)`. */
  predicate FullMatch(p: seq<Tok>, s: string, ci: bool) {
    |s| in Ends(p, s, 0, ci)
  }

  /** A match found by a search: its start and end. */
  datatype Span = Span(start: nat, end: nat)

  /** `re.search(p, s, pos)`: the leftmost start at or after `from`, and where that match ends. */
  function SearchFrom(p: seq<Tok>, s: string, from: nat, ci: bool): (r: Option<Span>)
    requires from <= |s|
    ensures r.Some? ==> from <= r.value.start <= r.value.end <= |s|
    ensures r.Some? ==> MatchesAt(p, s, r.value.start, ci)
    ensures r.Some? ==> r.value.end == Ends(p, s, r.value.start, ci)[0]
    ensures r.Some? ==> forall k :: from <= k < r.value.start ==> !MatchesAt(p, s, k, ci)
    ensures r.None? ==> forall k :: from <= k <= |s| ==> !MatchesAt(p, s, k, ci)
    decreases |s| - from
  {
    if MatchesAt(p, s, from, ci) then Some(Span(from, Ends(p, s, from, ci)[0]))
    else if from == |s| then None
    else SearchFrom(p, s, from + 1, ci)
  }

  /** `re.search(p, s)`. */
  function Search(p: seq<Tok>, s: string, ci: bool): Option<Span> {
    SearchFrom(p, s, 0, ci)
  }

  predicate Found(p: seq<Tok>, s: string, ci: bool) {
    Search(p, s, ci).Some?
  }

  /**
   * Group boundaries of the first successful path of `parts[0] parts[1] ...` from `i`:
   * `[i, b1, ..., bn]`, where part `k` spans `b_k .. b_{k+1}`.
   */
  function FirstSplit(parts: seq<seq<Tok>>, s: string, i: nat, ci: bool): (r: Option<seq<nat>>)
    requires i <= |s|
    ensures r.Some? ==> |r.value| == |parts| + 1 && r.value[0] == i
    ensures r.Some? ==> Ascending(r.value, |s|)
    decreases |parts|, 1
  {
    if parts == [] then Some([i])
    else FirstSplitFrom(parts, s, i, Ends(parts[0], s, i, ci), ci)
  }

  /** Try each candidate end of `parts[0]` in order. */
  function FirstSplitFrom(parts: seq<seq<Tok>>, s: string, i: nat, ends: seq<nat>, ci: bool)
    : (r: Option<seq<nat>>)
    requires parts != [] && i <= |s|
    requires forall k :: 0 <= k < |ends| ==> i <= ends[k] <= |s|
    ensures r.Some? ==> |r.value| == |parts| + 1 && r.value[0] == i
    ensures r.Some? ==> Ascending(r.value, |s|)
    decreases |parts|, 0, |ends|
  {
    if ends == [] then None
    else
      match FirstSplit(parts[1..], s, ends[0], ci)
      case Some(b) => Some([i] + b)
      case None => FirstSplitFrom(parts, s, i, ends[1..], ci)
  }

  /** A search whose match is cut into parts: the leftmost start, then the first path's boundaries. */
  function SearchSplit(parts: seq<seq<Tok>>, s: string, from: nat, ci: bool): (r: Option<seq<nat>>)
    requires from <= |s|
    ensures r.Some? ==> |r.value| == |parts| + 1 && from <= r.value[0]
    ensures r.Some? ==> Ascending(r.value, |s|)
    ensures r.Some? ==> FirstSplit(parts, s, r.value[0], ci) == r
    decreases |s| - from
  {
    match FirstSplit(parts, s, from, ci)
    case Some(b) => Some(b)
    case None => if from == |s| then None else SearchSplit(parts, s, from + 1, ci)
  }

  /** Group boundaries never go backwards and stay inside the text. */
  predicate Ascending(b: seq<nat>, n: nat) {
    forall j, k :: 0 <= j <= k < |b| ==> b[j] <= b[k] <= n
  }

  /** Text of group `k` (between boundaries `k` and `k+1`) of a split. */
  function Piece(s: string, b: seq<nat>, k: nat): string
    requires k + 1 < |b| && Ascending(b, |s|)
  {
    s[b[k]..b[k + 1]]
  }

  /**
   * `re.sub(p, "", s, count)` with `count == 0` meaning all: the non-overlapping
   * leftmost matches from `from` on are removed. A pattern that matches the empty
   * string at a position copies the next character.
   */
  function Remove(p: seq<Tok>, s: string, count: nat, ci: bool): string {
    RemoveN(p, s, 0, if count == 0 then |s| + 1 else count, ci)
  }

  function RemoveN(p: seq<Tok>, s: string, from: nat, budget: nat, ci: bool): string
    requires from <= |s|
    decreases |s| - from
  {
    if budget == 0 then s[from..]
    else
      match SearchFrom(p, s, from, ci)
      case None => s[from..]
      case Some(m) =>
        if m.end > m.start then s[from..m.start] + RemoveN(p, s, m.end, budget - 1, ci)
        else if m.start == |s| then s[from..]
        else s[from..m.start + 1] + RemoveN(p, s, m.start + 1, budget - 1, ci)
  }

  /** `re.split(p, s)`: the pieces between non-overlapping leftmost matches. */
  function SplitBy(p: seq<Tok>, s: string, from: nat, ci: bool): (r: seq<string>)
    requires from <= |s|
    ensures |r| > 0
    decreases |s| - from
  {
    match SearchFrom(p, s, from, ci)
    case None => [s[from..]]
    case Some(m) =>
      if m.end > m.start then [s[from..m.start]] + SplitBy(p, s, m.end, ci)
      else [s[from..]]
  }

  /** `re.finditer(p, s, pos)`: the starts and ends of successive non-overlapping matches. */
  function FindAll(p: seq<Tok>, s: string, from: nat, ci: bool): (r: seq<Span>)
    requires from <= |s|
    ensures forall k :: 0 <= k < |r| ==> from <= r[k].start <= r[k].end <= |s|
    decreases |s| - from
  {
    match SearchFrom(p, s, from, ci)
    case None => []
    case Some(m) =>
      if m.end > m.start then [m] + FindAll(p, s, m.end, ci)
      else if m.start == |s| then [m]
      else [m] + FindAll(p, s, m.start + 1, ci)
  }

  /** Some pattern of the list matches the whole of `s` (a loop of `re.fullmatch` calls). */
  predicate AnyFullMatch(pats: seq<seq<Tok>>, s: string, ci: bool) {
    pats != [] && (FullMatch(pats[0], s, ci) || AnyFullMatch(pats[1..], s, ci))
  }

  /** Some pattern of the list matches at the start of `s` (a loop of `re.match` calls). */
  predicate AnyMatchesAt(pats: seq<seq<Tok>>, s: string, ci: bool) {
    pats != [] && (MatchesAt(pats[0], s, 0, ci) || AnyMatchesAt(pats[1..], s, ci))
  }

  /** Some pattern of the list is found somewhere in `s` (a loop of `re.search` calls). */
  predicate AnyFound(pats: seq<seq<Tok>>, s: string, ci: bool) {
    pats != [] && (Found(pats[0], s, ci) || AnyFound(pats[1..], s, ci))
  }

  /** `re.finditer` for a pattern cut into parts: the boundaries of each successive match. */
  function FindAllSplit(parts: seq<seq<Tok>>, s: string, from: nat, ci: bool): (r: seq<seq<nat>>)
    requires from <= |s|
    ensures forall k :: 0 <= k < |r| ==> |r[k]| == |parts| + 1 && from <= r[k][0] && Ascending(r[k], |s|)
    ensures forall k :: 0 <= k < |r| ==> r[k][0] <= |s| && FirstSplit(parts, s, r[k][0], ci) == Some(r[k])
    decreases |s| - from
  {
    match SearchSplit(parts, s, from, ci)
    case None => []
    case Some(b) =>
      var e := b[|b| - 1];
      if e > b[0] then [b] + FindAllSplit(parts, s, e, ci)
      else if b[0] == |s| then [b]
      else [b] + FindAllSplit(parts, s, b[0] + 1, ci)
  }

  /**
   * `re.sub(pattern, r"\k", s)`: each non-overlapping match, found from `from` on, is
   * replaced by the text of its part `keep`.
   */
  function SubKeep(parts: seq<seq<Tok>>, keep: nat, s: string, from: nat, ci: bool): string
    requires keep < |parts| && from <= |s|
    decreases |s| - from
  {
    match SearchSplit(parts, s, from, ci)
    case None => s[from..]
    case Some(b) =>
      var e := b[|b| - 1];
      var kept := Piece(s, b, keep);
      if e > b[0] then s[from..b[0]] + kept + SubKeep(parts, keep, s, e, ci)
      else if b[0] == |s| then s[from..]
      else s[from..b[0] + 1] + SubKeep(parts, keep, s, b[0] + 1, ci)
  }

  // ---- facts about the matcher ----

  /** A path through `parts` starts with a path through `parts[0]`. */
  lemma FirstSplitHead(parts: seq<seq<Tok>>, s: string, i: nat, ci: bool)
    requires i <= |s| && parts != []
    requires FirstSplit(parts, s, i, ci).Some?
    ensures MatchesAt(parts[0], s, i, ci)
  {
  }

  /** A pattern that begins with `^` only matches at the start of the text or, under MULTILINE, of a line. */
  lemma LineStartOnly(p: seq<Tok>, s: string, i: nat, ci: bool)
    requires i <= |s| && p != [] && p[0].Bol?
    requires MatchesAt(p, s, i, ci)
    ensures i == 0 || (p[0].multiline && s[i - 1] == '\n')
  {
  }
}
