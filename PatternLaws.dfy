/**
 * Laws of the matcher in module Pattern: matching a concatenation is matching its
 * first part and then, from each place the first part can end, the second; and the
 * ends of single tokens (a literal, one optional or required character, an optional
 * group, the anchors). The validators' characterisations are proved with these.
 */
module PatternLaws {
  import opened Wrappers
  import opened Text
  import opened Pattern


  lemma SeqSizeAppend(a: seq<Tok>, b: seq<Tok>)
    ensures SeqSize(a + b) == SeqSize(a) + SeqSize(b)
  {
    if a == [] {
      assert a + b == b;
    } else {
      assert (a + b)[0] == a[0];
      assert (a + b)[1..] == a[1..] + b;
      SeqSizeAppend(a[1..], b);
    }
  }

  lemma EndsEachAppend(p: seq<Tok>, s: string, i: nat, xs: seq<nat>, ys: seq<nat>, ci: bool)
    requires forall k :: 0 <= k < |xs| ==> i <= xs[k] <= |s|
    requires forall k :: 0 <= k < |ys| ==> i <= ys[k] <= |s|
    ensures EndsEach(p, s, i, xs + ys, ci) == EndsEach(p, s, i, xs, ci) + EndsEach(p, s, i, ys, ci)
  {
    if xs == [] {
      assert xs + ys == ys;
    } else {
      assert (xs + ys)[0] == xs[0];
      assert (xs + ys)[1..] == xs[1..] + ys;
      EndsEachAppend(p, s, i, xs[1..], ys, ci);
    }
  }

  lemma EndsEachFrom(p: seq<Tok>, s: string, i: nat, j: nat, xs: seq<nat>, ci: bool)
    requires forall k :: 0 <= k < |xs| ==> i <= xs[k] <= |s| && j <= xs[k]
    ensures EndsEach(p, s, i, xs, ci) == EndsEach(p, s, j, xs, ci)
  {
    if xs != [] {
      EndsEachFrom(p, s, i, j, xs[1..], ci);
    }
  }

  lemma EndsConcat(a: seq<Tok>, b: seq<Tok>, s: string, i: nat, ci: bool)
    requires i <= |s|
    ensures Ends(a + b, s, i, ci) == EndsEach(b, s, i, Ends(a, s, i, ci), ci)
    decreases SeqSize(a), 0, 1
  {
    if a == [] {
      assert a + b == b;
      assert EndsEach(b, s, i, [i], ci) == Ends(b, s, i, ci) + EndsEach(b, s, i, [], ci);
    } else if a[0].Lit? {
      LitCase(a, b, s, i, ci);
    } else if a[0].Rep? {
      RepCase(a, b, s, i, ci);
    } else if a[0].Cat? {
      CatCase(a, b, s, i, ci);
    } else if a[0].Group? {
      GroupCase(a, b, s, i, ci);
    } else if a[0].Look? {
      LookCase(a, b, s, i, ci);
    } else if a[0].Bol? {
      BolCase(a, b, s, i, ci);
    } else if a[0].Eol? {
      EolCase(a, b, s, i, ci);
    } else {
      BoundaryCase(a, b, s, i, ci);
    }
  }

  lemma LitCase(a: seq<Tok>, b: seq<Tok>, s: string, i: nat, ci: bool)
    requires i <= |s| && a != [] && a[0].Lit?
    ensures Ends(a + b, s, i, ci) == EndsEach(b, s, i, Ends(a, s, i, ci), ci)
    decreases SeqSize(a), 0, 0
  {
    var rest := a[1..];
    var w := a[0].text;
    assert (a + b)[0] == a[0];
    assert (a + b)[1..] == rest + b;
    assert SeqSize(a) == TokSize(a[0]) + SeqSize(rest);
    if LitAt(s, i, w, ci) {
      assert Ends(a + b, s, i, ci) == Ends(rest + b, s, i + |w|, ci);
      assert Ends(a, s, i, ci) == Ends(rest, s, i + |w|, ci);
      EndsConcat(rest, b, s, i + |w|, ci);
      EndsEachFrom(b, s, i + |w|, i, Ends(rest, s, i + |w|, ci), ci);
    } else {
      assert Ends(a + b, s, i, ci) == [];
      assert Ends(a, s, i, ci) == [];
      assert EndsEach(b, s, i, [], ci) == [];
    }
  }

  lemma RepCase(a: seq<Tok>, b: seq<Tok>, s: string, i: nat, ci: bool)
    requires i <= |s| && a != [] && a[0].Rep?
    ensures Ends(a + b, s, i, ci) == EndsEach(b, s, i, Ends(a, s, i, ci), ci)
    decreases SeqSize(a), 0, 0
  {
    var rest := a[1..];
    var t := a[0];
    assert (a + b)[0] == a[0];
    assert (a + b)[1..] == rest + b;
    assert SeqSize(a) == TokSize(a[0]) + SeqSize(rest);
    var m := Run(t.cls, s, i, t.hi, ci);
    if m >= t.lo {
      var cs := Counts(i, t.lo, m, t.lazy);
      assert Ends(a + b, s, i, ci) == EndsEach(rest + b, s, i, cs, ci);
      assert Ends(a, s, i, ci) == EndsEach(rest, s, i, cs, ci);
      EndsEachConcat(rest, b, s, i, cs, ci);
    } else {
      assert Ends(a + b, s, i, ci) == [];
      assert Ends(a, s, i, ci) == [];
      assert EndsEach(b, s, i, [], ci) == [];
    }
  }

  lemma CatCase(a: seq<Tok>, b: seq<Tok>, s: string, i: nat, ci: bool)
    requires i <= |s| && a != [] && a[0].Cat?
    ensures Ends(a + b, s, i, ci) == EndsEach(b, s, i, Ends(a, s, i, ci), ci)
    decreases SeqSize(a), 0, 0
  {
    var rest := a[1..];
    assert (a + b)[0] == a[0];
    assert (a + b)[1..] == rest + b;
    assert SeqSize(a) == TokSize(a[0]) + SeqSize(rest);
    EndsEachConcat(rest, b, s, i, Ends(a[0].toks, s, i, ci), ci);
  }

  lemma GroupCase(a: seq<Tok>, b: seq<Tok>, s: string, i: nat, ci: bool)
    requires i <= |s| && a != [] && a[0].Group?
    ensures Ends(a + b, s, i, ci) == EndsEach(b, s, i, Ends(a, s, i, ci), ci)
    decreases SeqSize(a), 0, 0
  {
    var rest := a[1..];
    var alts := a[0].alts;
    assert (a + b)[0] == a[0];
    assert (a + b)[1..] == rest + b;
    assert SeqSize(a) == TokSize(a[0]) + SeqSize(rest);
    EndsAltsConcat(alts, rest, b, s, i, ci);
    var opt := if a[0].optional then Ends(rest, s, i, ci) else [];
    EndsEachAppend(b, s, i, EndsAlts(alts, rest, s, i, ci), opt, ci);
    if a[0].optional {
      EndsConcat(rest, b, s, i, ci);
    } else {
      assert EndsEach(b, s, i, [], ci) == [];
    }
  }

  lemma LookCase(a: seq<Tok>, b: seq<Tok>, s: string, i: nat, ci: bool)
    requires i <= |s| && a != [] && a[0].Look?
    ensures Ends(a + b, s, i, ci) == EndsEach(b, s, i, Ends(a, s, i, ci), ci)
    decreases SeqSize(a), 0, 0
  {
    var rest := a[1..];
    assert (a + b)[0] == a[0];
    assert (a + b)[1..] == rest + b;
    assert SeqSize(a) == TokSize(a[0]) + SeqSize(rest);
    EndsConcat(rest, b, s, i, ci);
    assert EndsEach(b, s, i, [], ci) == [];
  }

  lemma BolCase(a: seq<Tok>, b: seq<Tok>, s: string, i: nat, ci: bool)
    requires i <= |s| && a != [] && a[0].Bol?
    ensures Ends(a + b, s, i, ci) == EndsEach(b, s, i, Ends(a, s, i, ci), ci)
    decreases SeqSize(a), 0, 0
  {
    var rest := a[1..];
    assert (a + b)[0] == a[0];
    assert (a + b)[1..] == rest + b;
    assert SeqSize(a) == TokSize(a[0]) + SeqSize(rest);
    EndsConcat(rest, b, s, i, ci);
    assert EndsEach(b, s, i, [], ci) == [];
  }

  lemma EolCase(a: seq<Tok>, b: seq<Tok>, s: string, i: nat, ci: bool)
    requires i <= |s| && a != [] && a[0].Eol?
    ensures Ends(a + b, s, i, ci) == EndsEach(b, s, i, Ends(a, s, i, ci), ci)
    decreases SeqSize(a), 0, 0
  {
    var rest := a[1..];
    assert (a + b)[0] == a[0];
    assert (a + b)[1..] == rest + b;
    assert SeqSize(a) == TokSize(a[0]) + SeqSize(rest);
    EndsConcat(rest, b, s, i, ci);
    assert EndsEach(b, s, i, [], ci) == [];
  }

  lemma BoundaryCase(a: seq<Tok>, b: seq<Tok>, s: string, i: nat, ci: bool)
    requires i <= |s| && a != [] && a[0].WordBoundary?
    ensures Ends(a + b, s, i, ci) == EndsEach(b, s, i, Ends(a, s, i, ci), ci)
    decreases SeqSize(a), 0, 0
  {
    var rest := a[1..];
    assert (a + b)[0] == a[0];
    assert (a + b)[1..] == rest + b;
    assert SeqSize(a) == TokSize(a[0]) + SeqSize(rest);
    EndsConcat(rest, b, s, i, ci);
    assert EndsEach(b, s, i, [], ci) == [];
  }

  lemma EndsEachConcat(x: seq<Tok>, b: seq<Tok>, s: string, i: nat, xs: seq<nat>, ci: bool)
    requires forall k :: 0 <= k < |xs| ==> i <= xs[k] <= |s|
    ensures EndsEach(x + b, s, i, xs, ci) == EndsEach(b, s, i, EndsEach(x, s, i, xs, ci), ci)
    decreases SeqSize(x), 1, |xs|
  {
    if xs != [] {
      EndsConcat(x, b, s, xs[0], ci);
      EndsEachFrom(b, s, xs[0], i, Ends(x, s, xs[0], ci), ci);
      EndsEachConcat(x, b, s, i, xs[1..], ci);
      EndsEachAppend(b, s, i, Ends(x, s, xs[0], ci), EndsEach(x, s, i, xs[1..], ci), ci);
    }
  }

  lemma EndsAltsConcat(alts: seq<Tok>, x: seq<Tok>, b: seq<Tok>, s: string, i: nat, ci: bool)
    requires i <= |s|
    ensures EndsAlts(alts, x + b, s, i, ci) == EndsEach(b, s, i, EndsAlts(alts, x, s, i, ci), ci)
    decreases SeqSize(alts) + SeqSize(x), 2, |alts|
  {
    if alts != [] {
      assert SeqSize(alts) == TokSize(alts[0]) + SeqSize(alts[1..]);
      SeqSizeAppend([alts[0]], x);
      assert SeqSize([alts[0]]) == TokSize(alts[0]) + SeqSize([alts[0]][1..]);
      assert [alts[0]] + (x + b) == ([alts[0]] + x) + b;
      EndsConcat([alts[0]] + x, b, s, i, ci);
      EndsAltsConcat(alts[1..], x, b, s, i, ci);
      EndsEachAppend(b, s, i, Ends([alts[0]] + x, s, i, ci), EndsAlts(alts[1..], x, s, i, ci), ci);
    }
  }


  lemma CountsMembers(a: nat, lo: nat, hi: nat, lazy: bool)
    ensures forall e :: e in Counts(a, lo, hi, lazy) <==> a + lo <= e <= a + hi
    decreases hi - lo
  {
    if lo < hi {
      if lazy { CountsMembers(a, lo + 1, hi, lazy); } else { CountsMembers(a, lo, hi - 1, lazy); }
    }
  }

  lemma EndsEachMember(p: seq<Tok>, s: string, i: nat, xs: seq<nat>, ci: bool, e: nat)
    requires forall k :: 0 <= k < |xs| ==> i <= xs[k] <= |s|
    ensures e in EndsEach(p, s, i, xs, ci) <==> exists j :: j in xs && e in Ends(p, s, j, ci)
  {
    if xs != [] {
      EndsEachMember(p, s, i, xs[1..], ci, e);
      assert forall j :: j in xs <==> j == xs[0] || j in xs[1..];
    }
  }

  /** `e` is an end of `a b` exactly when `a` can end at some `j` from which `b` can end at `e`. */
  lemma EndsSeq(a: seq<Tok>, b: seq<Tok>, s: string, i: nat, ci: bool, e: nat)
    requires i <= |s|
    ensures e in Ends(a + b, s, i, ci) <==> exists j :: j in Ends(a, s, i, ci) && e in Ends(b, s, j, ci)
  {
    EndsConcat(a, b, s, i, ci);
    EndsEachMember(b, s, i, Ends(a, s, i, ci), ci, e);
  }

  lemma EndsLit(w: string, s: string, i: nat, ci: bool)
    requires i <= |s|
    ensures Ends([Lit(w)], s, i, ci) == if LitAt(s, i, w, ci) then [i + |w|] else []
  {
    assert [Lit(w)][1..] == [];
  }

  lemma EndsEachNil(s: string, i: nat, xs: seq<nat>, ci: bool)
    requires forall k :: 0 <= k < |xs| ==> i <= xs[k] <= |s|
    ensures EndsEach([], s, i, xs, ci) == xs
  {
    if xs != [] { EndsEachNil(s, i, xs[1..], ci); }
  }

  lemma EndsRep(cls: Cls, lo: nat, hi: Option<nat>, lazy: bool, s: string, i: nat, ci: bool, e: nat)
    requires i <= |s|
    ensures e in Ends([Rep(cls, lo, hi, lazy)], s, i, ci) <==> i + lo <= e <= i + Run(cls, s, i, hi, ci)
  {
    var p := [Rep(cls, lo, hi, lazy)];
    assert p[1..] == [];
    var m := Run(cls, s, i, hi, ci);
    if m >= lo {
      var cs := Counts(i, lo, m, lazy);
      assert Ends(p, s, i, ci) == EndsEach([], s, i, cs, ci);
      EndsEachNil(s, i, cs, ci);
      CountsMembers(i, lo, m, lazy);
    } else {
      assert Ends(p, s, i, ci) == [];
    }
  }

  lemma EndsCat(toks: seq<Tok>, s: string, i: nat, ci: bool, e: nat)
    requires i <= |s|
    ensures e in Ends([Cat(toks)], s, i, ci) <==> e in Ends(toks, s, i, ci)
  {
    assert [Cat(toks)][1..] == [];
    EndsEachNil(s, i, Ends(toks, s, i, ci), ci);
  }

  lemma EndsAltsMember(alts: seq<Tok>, s: string, i: nat, ci: bool, e: nat)
    requires i <= |s|
    ensures e in EndsAlts(alts, [], s, i, ci) <==> exists k :: 0 <= k < |alts| && e in Ends([alts[k]], s, i, ci)
  {
    if alts != [] {
      assert [alts[0]] + [] == [alts[0]];
      EndsAltsMember(alts[1..], s, i, ci, e);
      assert forall k :: 1 <= k < |alts| ==> alts[1..][k - 1] == alts[k];
      if e in Ends([alts[0]], s, i, ci) {
      } else if exists k :: 0 <= k < |alts| && e in Ends([alts[k]], s, i, ci) {
        var k :| 0 <= k < |alts| && e in Ends([alts[k]], s, i, ci);
        assert k > 0;
        assert alts[1..][k - 1] == alts[k];
      }
    }
  }

  lemma EndsGroup(alts: seq<Tok>, optional: bool, s: string, i: nat, ci: bool, e: nat)
    requires i <= |s|
    ensures e in Ends([Group(alts, optional)], s, i, ci)
      <==> (exists k :: 0 <= k < |alts| && e in Ends([alts[k]], s, i, ci)) || (optional && e == i)
  {
    assert [Group(alts, optional)][1..] == [];
    EndsAltsMember(alts, s, i, ci, e);
  }


  lemma EndsOne(cls: Cls, s: string, i: nat, ci: bool)
    requires i <= |s|
    ensures Ends([One(cls)], s, i, ci) == if i < |s| && InClass(cls, s[i], ci) then [i + 1] else []
  {
    var p := [One(cls)];
    assert p[0] == Rep(cls, 1, Some(1), false);
    assert p[1..] == [];
    if i < |s| && InClass(cls, s[i], ci) {
      assert Run(cls, s, i + 1, Some(0), ci) == 0;
      assert Run(cls, s, i, Some(1), ci) == 1;
      assert Counts(i, 1, 1, false) == [i + 1];
      EndsEachNil(s, i, [i + 1], ci);
    } else {
      assert Run(cls, s, i, Some(1), ci) == 0;
    }
  }

  lemma EndsMaybe(cls: Cls, s: string, i: nat, ci: bool)
    requires i <= |s|
    ensures Ends([Maybe(cls)], s, i, ci) == if i < |s| && InClass(cls, s[i], ci) then [i + 1, i] else [i]
  {
    var p := [Maybe(cls)];
    assert p[0] == Rep(cls, 0, Some(1), false);
    assert p[1..] == [];
    if i < |s| && InClass(cls, s[i], ci) {
      assert Run(cls, s, i + 1, Some(0), ci) == 0;
      assert Run(cls, s, i, Some(1), ci) == 1;
      assert Counts(i, 0, 1, false) == [i + 1, i];
      EndsEachNil(s, i, [i + 1, i], ci);
    } else {
      assert Run(cls, s, i, Some(1), ci) == 0;
      assert Counts(i, 0, 0, false) == [i];
      EndsEachNil(s, i, [i], ci);
    }
  }

  lemma EndsOpt(sub: seq<Tok>, s: string, i: nat, ci: bool)
    requires i <= |s|
    ensures Ends([Opt(sub)], s, i, ci) == Ends(sub, s, i, ci) + [i]
  {
    var p := [Opt(sub)];
    assert p[1..] == [];
    assert [Cat(sub)] + [] == [Cat(sub)];
    assert [Cat(sub)][1..] == [];
    EndsEachNil(s, i, Ends(sub, s, i, ci), ci);
    assert EndsAlts([Cat(sub)], [], s, i, ci) == Ends([Cat(sub)], s, i, ci) + [];
  }

  lemma EndsEachOne(p: seq<Tok>, s: string, i: nat, j: nat, ci: bool)
    requires i <= j <= |s|
    ensures EndsEach(p, s, i, [j], ci) == Ends(p, s, j, ci)
  {
    assert EndsEach(p, s, i, [], ci) == [];
  }

  lemma EndsEol(s: string, i: nat, ci: bool)
    requires i <= |s|
    ensures Ends([Eol(false)], s, i, ci) == if EolAt(s, i) then [i] else []
  {
    assert [Eol(false)][1..] == [];
  }

  lemma EndsBol(s: string, i: nat, ci: bool)
    requires i <= |s|
    ensures Ends([Bol(false)], s, i, ci) == if i == 0 then [i] else []
  {
    assert [Bol(false)][1..] == [];
  }

  /** `$` without MULTILINE holds at `i`: the end of the text, or just before a final newline. */
  predicate EolAt(s: string, i: nat) { i == |s| || (i < |s| && s[i] == '\n' && i + 1 == |s|) }

  lemma OptThen(sub: seq<Tok>, rest: seq<Tok>, s: string, i: nat, ci: bool)
    requires i <= |s|
    ensures Ends([Opt(sub)] + rest, s, i, ci) == EndsEach(rest, s, i, Ends(sub, s, i, ci), ci) + Ends(rest, s, i, ci)
  {
    EndsConcat([Opt(sub)], rest, s, i, ci);
    EndsOpt(sub, s, i, ci);
    EndsEachAppend(rest, s, i, Ends(sub, s, i, ci), [i], ci);
    EndsEachOne(rest, s, i, i, ci);
  }

  lemma OptThenEol(tail: seq<Tok>, s: string, i: nat, j: nat)
    requires i <= j <= |s|
    requires Ends(tail, s, i, false) == [j] || Ends(tail, s, i, false) == []
    ensures Ends([Opt(tail), Eol(false)], s, i, false) != []
      <==> EolAt(s, i) || (Ends(tail, s, i, false) == [j] && EolAt(s, j))
  {
    var eol := [Eol(false)];
    assert [Opt(tail), Eol(false)] == [Opt(tail)] + eol;
    OptThen(tail, eol, s, i, false);
    var dot := Ends(tail, s, i, false);
    var viaDot := EndsEach(eol, s, i, dot, false);
    EndsEol(s, i, false);
    if dot != [] {
      EndsEachOne(eol, s, i, j, false);
      EndsEol(s, j, false);
      assert viaDot == (if EolAt(s, j) then [j] else []);
    } else {
      assert viaDot == [];
    }
  }

  /** A pattern that starts with a non-empty literal can only match where that literal's first character is. */
  lemma LitHead(w: string, rest: seq<Tok>, s: string, i: nat, ci: bool)
    requires w != [] && i <= |s|
    requires Ends([Lit(w)] + rest, s, i, ci) != []
    ensures i < |s| && SameChar(s[i], w[0], ci)
  {
    EndsConcat([Lit(w)], rest, s, i, ci);
    EndsLit(w, s, i, ci);
  }

  /** `re.search` of a one-character class finds something exactly when some character is in the class. */
  lemma FoundOne(cls: Cls, s: string, ci: bool)
    ensures Found([One(cls)], s, ci) <==> exists k :: 0 <= k < |s| && InClass(cls, s[k], ci)
  {
    forall k | 0 <= k <= |s|
      ensures MatchesAt([One(cls)], s, k, ci) <==> k < |s| && InClass(cls, s[k], ci)
    {
      EndsOne(cls, s, k, ci);
    }
  }

  /** Every match `finditer` reports for a pattern whose first part begins with a MULTILINE `^` starts a line. */
  lemma FindAllSplitLineStarts(parts: seq<seq<Tok>>, s: string, from: nat, ci: bool)
    requires from <= |s| && parts != [] && parts[0] != [] && parts[0][0] == Bol(true)
    ensures forall b :: b in FindAllSplit(parts, s, from, ci) ==> b[0] == 0 || s[b[0] - 1] == '\n'
  {
    var all := FindAllSplit(parts, s, from, ci);
    forall b | b in all
      ensures b[0] == 0 || s[b[0] - 1] == '\n'
    {
      FirstSplitHead(parts, s, b[0], ci);
      LineStartOnly(parts[0], s, b[0], ci);
    }
  }

  /** A whole-string match of a list whose every pattern opens with a literal starting with `c` starts with `c`. */
  lemma {:induction false} AnyFullMatchHead(pats: seq<seq<Tok>>, c: char, s: string, ci: bool)
    requires forall k :: 0 <= k < |pats| ==> pats[k] != [] && pats[k][0].Lit? && pats[k][0].text != [] && pats[k][0].text[0] == c
    requires AnyFullMatch(pats, s, ci)
    ensures s != [] && SameChar(s[0], c, ci)
  {
    if FullMatch(pats[0], s, ci) {
      var w := pats[0][0].text;
      assert pats[0] == [Lit(w)] + pats[0][1..];
      LitHead(w, pats[0][1..], s, 0, ci);
    } else {
      AnyFullMatchHead(pats[1..], c, s, ci);
    }
  }

  /** A list of patterns matches in full exactly when one of its members does. */
  lemma {:induction false} AnyFullMatchSome(pats: seq<seq<Tok>>, s: string, ci: bool)
    ensures AnyFullMatch(pats, s, ci) <==> exists k :: 0 <= k < |pats| && FullMatch(pats[k], s, ci)
  {
    if pats != [] {
      AnyFullMatchSome(pats[1..], s, ci);
      assert forall k :: 1 <= k < |pats| ==> pats[1..][k - 1] == pats[k];
      if FullMatch(pats[0], s, ci) {
        assert 0 < |pats|;
      }
    }
  }

  /** `\d` holds exactly of the decimal digits. */
  lemma DigitClass(c: char)
    ensures InClass(Digit, c, false) <==> IsDigit(c)
  {
    assert ItemsHave(Digit.items[1..], c) == false;
  }

  /** The first boundary of a path through the parts is an end of the first part. */
  lemma {:induction false} FirstSplitFromEnd(parts: seq<seq<Tok>>, s: string, i: nat, ends: seq<nat>, ci: bool)
    requires parts != [] && i <= |s|
    requires forall k :: 0 <= k < |ends| ==> i <= ends[k] <= |s|
    requires FirstSplitFrom(parts, s, i, ends, ci).Some?
    ensures FirstSplitFrom(parts, s, i, ends, ci).value[1] in ends
  {
    if FirstSplit(parts[1..], s, ends[0], ci).None? {
      FirstSplitFromEnd(parts, s, i, ends[1..], ci);
    }
  }

  /** Part 0 of a split spans a match of the first part. */
  lemma FirstSplitPart0(parts: seq<seq<Tok>>, s: string, i: nat, ci: bool)
    requires parts != [] && i <= |s|
    requires FirstSplit(parts, s, i, ci).Some?
    ensures FirstSplit(parts, s, i, ci).value[1] in Ends(parts[0], s, i, ci)
  {
    FirstSplitFromEnd(parts, s, i, Ends(parts[0], s, i, ci), ci);
  }

  /** After the first part, the rest of a split is the first path of the remaining parts. */
  lemma {:induction false} FirstSplitFromTail(parts: seq<seq<Tok>>, s: string, i: nat, ends: seq<nat>, ci: bool)
    requires parts != [] && i <= |s|
    requires forall k :: 0 <= k < |ends| ==> i <= ends[k] <= |s|
    requires FirstSplitFrom(parts, s, i, ends, ci).Some?
    ensures var b := FirstSplitFrom(parts, s, i, ends, ci).value;
      b[1] <= |s| && FirstSplit(parts[1..], s, b[1], ci) == Some(b[1..])
    decreases |ends|
  {
    match FirstSplit(parts[1..], s, ends[0], ci)
    case Some(b) =>
      assert ([i] + b)[1..] == b;
    case None =>
      FirstSplitFromTail(parts, s, i, ends[1..], ci);
  }

  /** The part of a split after the first spans a match of the second part. */
  lemma SecondPartEnd(parts: seq<seq<Tok>>, s: string, i: nat, ci: bool)
    requires |parts| >= 2 && i <= |s|
    requires FirstSplit(parts, s, i, ci).Some?
    ensures var b := FirstSplit(parts, s, i, ci).value; b[2] in Ends(parts[1], s, b[1], ci)
  {
    var b := FirstSplit(parts, s, i, ci).value;
    FirstSplitFromTail(parts, s, i, Ends(parts[0], s, i, ci), ci);
    FirstSplitPart0(parts[1..], s, b[1], ci);
  }

  /** In a split into two parts, the second part ends where its first (highest-priority) end lies. */
  lemma LastPartFirstEnd(parts: seq<seq<Tok>>, s: string, i: nat, ci: bool)
    requires |parts| == 2 && i <= |s|
    requires FirstSplit(parts, s, i, ci).Some?
    ensures var b := FirstSplit(parts, s, i, ci).value;
      Ends(parts[1], s, b[1], ci) != [] && b[2] == Ends(parts[1], s, b[1], ci)[0]
  {
    var b := FirstSplit(parts, s, i, ci).value;
    FirstSplitFromTail(parts, s, i, Ends(parts[0], s, i, ci), ci);
    var tail := parts[1..];
    assert tail == [parts[1]] && tail[1..] == [];
    var es := Ends(parts[1], s, b[1], ci);
    assert FirstSplit(tail, s, b[1], ci) == FirstSplitFrom(tail, s, b[1], es, ci);
    assert es != [];
    assert FirstSplit(tail[1..], s, es[0], ci) == Some([es[0]]);
    assert b[1..] == [b[1], es[0]];
  }

  /** A group without `?` ends first where its first alternative ends first. */
  lemma GroupFirstEnd(alts: seq<Tok>, s: string, i: nat, ci: bool)
    requires i <= |s| && alts != [] && Ends([alts[0]], s, i, ci) != []
    ensures Ends([Group(alts, false)], s, i, ci) != []
    ensures Ends([Group(alts, false)], s, i, ci)[0] == Ends([alts[0]], s, i, ci)[0]
  {
    assert [Group(alts, false)][1..] == [];
    assert [alts[0]] + [] == [alts[0]];
  }

  /** A bracketed sequence ends first where the sequence does. */
  lemma CatFirstEnd(toks: seq<Tok>, s: string, i: nat, ci: bool)
    requires i <= |s|
    ensures Ends([Cat(toks)], s, i, ci) == Ends(toks, s, i, ci)
  {
    assert [Cat(toks)][1..] == [];
    EndsEachNil(s, i, Ends(toks, s, i, ci), ci);
  }

  /** A greedy repetition that can match ends first after its longest run. */
  lemma GreedyFirstEnd(cls: Cls, lo: nat, hi: Option<nat>, s: string, i: nat, ci: bool)
    requires i <= |s| && lo <= Run(cls, s, i, hi, ci)
    ensures Ends([Rep(cls, lo, hi, false)], s, i, ci) != []
    ensures Ends([Rep(cls, lo, hi, false)], s, i, ci)[0] == i + Run(cls, s, i, hi, ci)
  {
    var m := Run(cls, s, i, hi, ci);
    assert [Rep(cls, lo, hi, false)][1..] == [];
    EndsEachNil(s, i, Counts(i, lo, m, false), ci);
  }

  /** A literal matched ignoring case agrees with the text once both are lower-cased. */
  lemma {:induction false} LitAtLower(s: string, i: nat, w: string, ci: bool)
    requires i <= |s| && LitAt(s, i, w, ci)
    ensures Lower(s[i..i + |w|]) == Lower(w)
    decreases |w|
  {
    if w != [] {
      LitAtLower(s, i + 1, w[1..], ci);
      assert s[i..i + |w|] == [s[i]] + s[i + 1..i + 1 + |w[1..]|];
      assert w == [w[0]] + w[1..];
    }
  }

  /** An end of `[Lit(w)] + rest` lies past an occurrence of `w`. */
  lemma LitThenMember(w: string, rest: seq<Tok>, s: string, i: nat, ci: bool, e: nat)
    requires i <= |s| && e in Ends([Lit(w)] + rest, s, i, ci)
    ensures LitAt(s, i, w, ci) && i + |w| <= e
  {
    EndsSeq([Lit(w)], rest, s, i, ci, e);
    EndsLit(w, s, i, ci);
  }

  /** A list of patterns matches at the start exactly when one of its members does. */
  lemma {:induction false} AnyMatchesAtSome(pats: seq<seq<Tok>>, s: string, ci: bool)
    ensures AnyMatchesAt(pats, s, ci) <==> exists k :: 0 <= k < |pats| && MatchesAt(pats[k], s, 0, ci)
  {
    if pats != [] {
      AnyMatchesAtSome(pats[1..], s, ci);
      assert forall k :: 1 <= k < |pats| ==> pats[1..][k - 1] == pats[k];
      if MatchesAt(pats[0], s, 0, ci) {
        assert 0 < |pats|;
      }
    }
  }

  /** Every pattern of the list is `^` then a literal whose first letter is `c`. */
  predicate OpensWith(pats: seq<seq<Tok>>, c: char) {
    forall k :: 0 <= k < |pats| ==>
      |pats[k]| >= 2 && pats[k][0] == Bol(false) && pats[k][1].Lit? && pats[k][1].text != [] && pats[k][1].text[0] == c
  }

  /** A pattern `^w...` matches at the start only where the text starts with the first letter of `w`. */
  lemma AnchoredLitStart(w: string, rest: seq<Tok>, s: string, ci: bool)
    requires w != [] && MatchesAt([Bol(false)] + ([Lit(w)] + rest), s, 0, ci)
    ensures s != [] && SameChar(s[0], w[0], ci)
  {
    var p := [Bol(false)] + ([Lit(w)] + rest);
    assert p[1..] == [Lit(w)] + rest;
    LitHead(w, rest, s, 0, ci);
  }

  /** A match of a list of patterns that all open with `^` and a literal starting with `c` starts with `c`. */
  lemma {:induction false} AnyMatchesAtOpens(pats: seq<seq<Tok>>, c: char, s: string, ci: bool)
    requires OpensWith(pats, c) && AnyMatchesAt(pats, s, ci)
    ensures s != [] && SameChar(s[0], c, ci)
  {
    if MatchesAt(pats[0], s, 0, ci) {
      var p := pats[0];
      assert p == [Bol(false)] + ([Lit(p[1].text)] + p[2..]);
      AnchoredLitStart(p[1].text, p[2..], s, ci);
    } else {
      assert OpensWith(pats[1..], c) by {
        forall k | 0 <= k < |pats[1..]|
          ensures pats[1..][k] == pats[k + 1]
        {
        }
      }
      AnyMatchesAtOpens(pats[1..], c, s, ci);
    }
  }

  /** After position 0 a pattern anchored with `^` finds nothing more to remove. */
  lemma AnchoredRemoveRest(p: seq<Tok>, s: string, from: nat, budget: nat, ci: bool)
    requires p != [] && p[0] == Bol(false) && 1 <= from <= |s|
    ensures RemoveN(p, s, from, budget, ci) == s[from..]
  {
    var r := SearchFrom(p, s, from, ci);
    if budget > 0 && r.Some? {
      LineStartOnly(p, s, r.value.start, ci);
    }
  }

  /** Removing a pattern anchored with `^` leaves a suffix of the text, the whole text when it does not match. */
  lemma AnchoredRemoveSuffix(p: seq<Tok>, s: string, count: nat, ci: bool) returns (k: nat)
    requires p != [] && p[0] == Bol(false)
    ensures k <= |s| && Remove(p, s, count, ci) == s[k..]
    ensures !MatchesAt(p, s, 0, ci) ==> k == 0
  {
    var budget := if count == 0 then |s| + 1 else count;
    var r := SearchFrom(p, s, 0, ci);
    k := 0;
    if r.Some? {
      LineStartOnly(p, s, r.value.start, ci);
      var m := r.value;
      if m.end > m.start {
        AnchoredRemoveRest(p, s, m.end, budget - 1, ci);
        k := m.end;
      } else if m.start < |s| {
        AnchoredRemoveRest(p, s, 1, budget - 1, ci);
        assert s[0..1] + s[1..] == s[0..];
      }
    }
  }

  /** A class written as a list of characters holds exactly those characters. */
  lemma {:induction false} CharsHave(cs: string, c: char)
    ensures ItemsHave(Chars(cs).items, c) <==> c in cs
    decreases |cs|
  {
    if cs != [] {
      assert Chars(cs).items[1..] == Chars(cs[1..]).items;
      CharsHave(cs[1..], c);
      assert cs == [cs[0]] + cs[1..];
    }
  }

  /** An end of `a b` passes through some end `j` of `a`. */
  lemma SeqWitness(a: seq<Tok>, b: seq<Tok>, s: string, i: nat, ci: bool, e: nat) returns (j: nat)
    requires i <= |s| && e in Ends(a + b, s, i, ci)
    ensures i <= j <= |s| && j in Ends(a, s, i, ci) && e in Ends(b, s, j, ci)
  {
    EndsSeq(a, b, s, i, ci, e);
    j :| j in Ends(a, s, i, ci) && e in Ends(b, s, j, ci);
  }

  /** `w` occurs at `i` when each of its characters matches the text's there. */
  lemma {:induction false} LitAtChars(s: string, i: nat, w: string, ci: bool)
    requires i + |w| <= |s|
    requires forall k :: 0 <= k < |w| ==> SameChar(s[i + k], w[k], ci)
    ensures LitAt(s, i, w, ci)
    decreases |w|
  {
    if w != [] {
      assert SameChar(s[i], w[0], ci);
      forall k | 0 <= k < |w[1..]|
        ensures SameChar(s[i + 1 + k], w[1..][k], ci)
      {
        assert SameChar(s[i + (k + 1)], w[k + 1], ci);
      }
      LitAtChars(s, i + 1, w[1..], ci);
    }
  }

  /** An end of `a` followed by an end of `b` from there is an end of `a b`. */
  lemma SeqJoin(a: seq<Tok>, b: seq<Tok>, s: string, i: nat, j: nat, ci: bool, e: nat)
    requires i <= |s| && j in Ends(a, s, i, ci) && e in Ends(b, s, j, ci)
    ensures e in Ends(a + b, s, i, ci)
  {
    EndsSeq(a, b, s, i, ci, e);
  }

  /** Ends of five tokens, each from the previous one's end, give an end of the five in a row. */
  lemma ChainEnds(p: seq<Tok>, t1: Tok, t2: Tok, t3: Tok, t4: Tok, t5: Tok, s: string,
                  i0: nat, i1: nat, i2: nat, i3: nat, i4: nat, e: nat, ci: bool)
    requires p == [t1] + ([t2] + ([t3] + ([t4] + [t5])))
    requires i0 <= i1 <= i2 <= i3 <= i4 <= |s|
    requires i1 in Ends([t1], s, i0, ci) && i2 in Ends([t2], s, i1, ci) && i3 in Ends([t3], s, i2, ci)
    requires i4 in Ends([t4], s, i3, ci) && e in Ends([t5], s, i4, ci)
    ensures e in Ends(p, s, i0, ci)
  {
    SeqJoin([t4], [t5], s, i3, i4, ci, e);
    SeqJoin([t3], [t4] + [t5], s, i2, i3, ci, e);
    SeqJoin([t2], [t3] + ([t4] + [t5]), s, i1, i2, ci, e);
    SeqJoin([t1], [t2] + ([t3] + ([t4] + [t5])), s, i0, i1, ci, e);
  }

  /** An end of `w rest` comes after an occurrence of `w` and an end of `rest` from there. */
  lemma LitStep(w: string, rest: seq<Tok>, s: string, i: nat, ci: bool, e: nat)
    requires i <= |s| && e in Ends([Lit(w)] + rest, s, i, ci)
    ensures LitAt(s, i, w, ci) && e in Ends(rest, s, i + |w|, ci)
  {
    var j := SeqWitness([Lit(w)], rest, s, i, ci, e);
    EndsLit(w, s, i, ci);
  }

  /** An end of `t rest`, for a star `t` such as `\s*`, comes after a run of class characters and an end of `rest` from there. */
  lemma StarStep(t: Tok, rest: seq<Tok>, s: string, i: nat, ci: bool, e: nat) returns (q: nat)
    requires t.Rep? && t.lo == 0 && t.hi.None?
    requires i <= |s| && e in Ends([t] + rest, s, i, ci)
    ensures i <= q <= |s| && e in Ends(rest, s, q, ci)
    ensures forall x :: i <= x < q ==> InClass(t.cls, s[x], ci)
  {
    q := SeqWitness([t], rest, s, i, ci, e);
    EndsRep(t.cls, 0, None, t.lazy, s, i, ci, q);
  }

  /** An end of `[cls] rest` comes after one class character and an end of `rest` from there. */
  lemma OneStep(cls: Cls, rest: seq<Tok>, s: string, i: nat, ci: bool, e: nat)
    requires i <= |s| && e in Ends([One(cls)] + rest, s, i, ci)
    ensures i < |s| && InClass(cls, s[i], ci) && e in Ends(rest, s, i + 1, ci)
  {
    var j := SeqWitness([One(cls)], rest, s, i, ci, e);
    EndsOne(cls, s, i, ci);
  }

  // ---- membership laws, token by token ----

  /** A greedy or lazy run can stop after `m` characters exactly when `m` class characters follow `i` within the bound. */
  lemma RunCovers(cls: Cls, s: string, i: nat, hi: Option<nat>, ci: bool, m: nat)
    requires i <= |s|
    ensures m <= Run(cls, s, i, hi, ci)
      <==> i + m <= |s| && (hi.None? || m <= hi.value) && forall k :: i <= k < i + m ==> InClass(cls, s[k], ci)
  {
    var r := Run(cls, s, i, hi, ci);
    if m > r && i + m <= |s| && (hi.None? || m <= hi.value) {
      assert !InClass(cls, s[i + r], ci);
    }
  }

  /** Ignoring case, `w` occurs at `i` exactly when the text there lower-cases to `w` lower-cased. */
  lemma LitAtIff(s: string, i: nat, w: string)
    requires i <= |s|
    ensures LitAt(s, i, w, true) <==> i + |w| <= |s| && Lower(s[i..i + |w|]) == Lower(w)
  {
    if LitAt(s, i, w, true) {
      LitAtLower(s, i, w, true);
    } else if i + |w| <= |s| && Lower(s[i..i + |w|]) == Lower(w) {
      forall k | 0 <= k < |w|
        ensures SameChar(s[i + k], w[k], true)
      {
        assert Lower(s[i..i + |w|])[k] == ToLower(s[i + k]);
        assert Lower(w)[k] == ToLower(w[k]);
      }
      LitAtChars(s, i, w, true);
    }
  }

  /** Ignoring case, `[Lit(w)]` ends at `e` exactly when the text up to `e` lower-cases to `w` lower-cased. */
  lemma WordEnds(w: string, s: string, j: nat, e: nat)
    requires j <= e <= |s|
    ensures e in Ends([Lit(w)], s, j, true) <==> Lower(s[j..e]) == Lower(w)
  {
    EndsLit(w, s, j, true);
    LitAtIff(s, j, w);
  }

  /** `WordEnds` with the lower-cased word given by name. */
  lemma WordEndsAs(w: string, lw: string, s: string, j: nat, e: nat)
    requires j <= e <= |s| && Lower(w) == lw
    ensures e in Ends([Lit(w)], s, j, true) <==> Lower(s[j..e]) == lw
  {
    WordEnds(w, s, j, e);
  }

  /** A word without capitals ends where the text, lower-cased, spells it. */
  lemma LowerWordEnds(w: string, s: string, j: nat, e: nat)
    requires j <= e <= |s| && forall k :: 0 <= k < |w| ==> !IsUpper(w[k])
    ensures e in Ends([Lit(w)], s, j, true) <==> Lower(s[j..e]) == w
  {
    WordEnds(w, s, j, e);
    LowerKeeps(w);
  }

  /** An end of `w rest` is an end of `rest` after an occurrence of `w`, and conversely. */
  lemma LitThenIff(w: string, rest: seq<Tok>, s: string, i: nat, ci: bool, e: nat)
    requires i <= |s|
    ensures e in Ends([Lit(w)] + rest, s, i, ci) <==> LitAt(s, i, w, ci) && e in Ends(rest, s, i + |w|, ci)
  {
    EndsSeq([Lit(w)], rest, s, i, ci, e);
    EndsLit(w, s, i, ci);
  }

  /** `LitThenIff` for a one-letter literal, ignoring case. */
  lemma LetterThenIff(p: seq<Tok>, w: string, lw: char, rest: seq<Tok>, s: string, i: nat, e: nat)
    requires p == [Lit(w)] + rest && |w| == 1 && ToLower(w[0]) == lw && i <= |s|
    ensures e in Ends(p, s, i, true) <==> i < |s| && ToLower(s[i]) == lw && e in Ends(rest, s, i + 1, true)
  {
    LitThenIff(w, rest, s, i, true, e);
    if i < |s| {
      assert LitAt(s, i, w, true) <==> SameChar(s[i], w[0], true) && LitAt(s, i + 1, w[1..], true);
    }
  }

  /** An end of `x? rest` is an end of `rest` after one class character, or from where it started. */
  lemma MaybeThenIff(cls: Cls, rest: seq<Tok>, s: string, i: nat, ci: bool, e: nat)
    requires i <= |s|
    ensures e in Ends([Maybe(cls)] + rest, s, i, ci)
      <==> (i < |s| && InClass(cls, s[i], ci) && e in Ends(rest, s, i + 1, ci)) || e in Ends(rest, s, i, ci)
  {
    EndsSeq([Maybe(cls)], rest, s, i, ci, e);
    EndsMaybe(cls, s, i, ci);
  }

  /** An end of `(?:a|b|...)` is an end of one of the alternatives, and conversely. */
  lemma AnyOfIff(alts: seq<seq<Tok>>, s: string, i: nat, ci: bool, e: nat)
    requires i <= |s|
    ensures e in Ends([AnyOf(alts)], s, i, ci) <==> exists k :: 0 <= k < |alts| && e in Ends(alts[k], s, i, ci)
  {
    var g := AnyOf(alts);
    EndsGroup(g.alts, false, s, i, ci, e);
    forall k | 0 <= k < |alts|
      ensures e in Ends([g.alts[k]], s, i, ci) <==> e in Ends(alts[k], s, i, ci)
    {
      EndsCat(alts[k], s, i, ci, e);
    }
  }

  /** `re.match("^g$", s)` succeeds exactly when `g` spans the whole text, or all of it but one final newline. */
  lemma AnchoredIff(g: Tok, s: string, ci: bool)
    ensures MatchesAt([Bol(false), g, Eol(false)], s, 0, ci)
      <==> |s| in Ends([g], s, 0, ci) || (s != [] && s[|s| - 1] == '\n' && |s| - 1 in Ends([g], s, 0, ci))
  {
    if MatchesAt([Bol(false), g, Eol(false)], s, 0, ci) {
      var m := AnchoredEnd(g, s, ci);
    } else {
      if |s| in Ends([g], s, 0, ci) {
        AnchoredFrom(g, s, ci, |s|);
      }
      if s != [] && s[|s| - 1] == '\n' && |s| - 1 in Ends([g], s, 0, ci) {
        AnchoredFrom(g, s, ci, |s| - 1);
      }
    }
  }

  /** A match of `^g$` from the start passes an end of `g` where `$` holds. */
  lemma AnchoredEnd(g: Tok, s: string, ci: bool) returns (m: nat)
    requires MatchesAt([Bol(false), g, Eol(false)], s, 0, ci)
    ensures m in Ends([g], s, 0, ci) && EolAt(s, m)
  {
    var p := [Bol(false), g, Eol(false)];
    assert p == [Bol(false)] + ([g] + [Eol(false)]);
    var e := Ends(p, s, 0, ci)[0];
    var j := SeqWitness([Bol(false)], [g] + [Eol(false)], s, 0, ci, e);
    EndsBol(s, 0, ci);
    m := SeqWitness([g], [Eol(false)], s, j, ci, e);
    EndsEol(s, m, ci);
  }

  /** An end of `g` where `$` holds gives a match of `^g$` from the start. */
  lemma AnchoredFrom(g: Tok, s: string, ci: bool, m: nat)
    requires m in Ends([g], s, 0, ci) && EolAt(s, m)
    ensures MatchesAt([Bol(false), g, Eol(false)], s, 0, ci)
  {
    var p := [Bol(false), g, Eol(false)];
    assert p == [Bol(false)] + ([g] + [Eol(false)]);
    EndsEol(s, m, ci);
    SeqJoin([g], [Eol(false)], s, 0, m, ci, m);
    EndsBol(s, 0, ci);
    SeqJoin([Bol(false)], [g] + [Eol(false)], s, 0, 0, ci, m);
    assert m in Ends(p, s, 0, ci);
  }
}
