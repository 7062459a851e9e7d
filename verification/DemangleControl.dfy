/** What is read does not depend on what is printed, and which runs are free of faulty lengths. */
module DemangleControl {
  import opened DemangleGrammar
  import opened DemangleSpec

  /** Equal in what parsing looks at. */
  predicate Alike(s: St, t: St) {
    s.src == t.src && s.cur == t.cur && s.number == t.number
  }

  predicate AlikeRes(r: Res, q: Res) {
    match r
    case Match(s, t) => q.Match? && q.tree == t && Alike(s, q.st)
    case NoMatch(s) => q.NoMatch? && Alike(s, q.st)
    case Fault => q.Fault?
  }

  lemma NumeralAlike(radix: Radix, s: St, t: St)
    requires Ok(s) && Ok(t) && Alike(s, t)
    ensures AlikeRes(RunNumeral(radix, s), RunNumeral(radix, t))
  {
  }

  lemma IdentifierAlike(s: St, t: St)
    requires Ok(s) && Ok(t) && Alike(s, t) && s.number >= -1
    ensures AlikeRes(RunIdentifier(s), RunIdentifier(t))
  {
    hide Print, IdentifierText;
  }

  lemma SizedNameAlike(s: St, t: St)
    requires Ok(s) && Ok(t) && Alike(s, t)
    ensures AlikeRes(RunSizedName(s), RunSizedName(t))
  {
    NumeralAlike(Decimal, s, t);
    var r, q := RunNumeral(Decimal, s), RunNumeral(Decimal, t);
    if r.Match? && -1 <= r.st.number <= INT_MAX { IdentifierAlike(r.st, q.st); }
    hide RunNumeral, RunIdentifier;
  }

  lemma QualifiersAlike(s: St, t: St)
    requires Ok(s) && Ok(t) && Alike(s, t)
    ensures AlikeRes(RunCVQualifiers(s), RunCVQualifiers(t))
  {
    assert Alike(Skip(s, 'r'), Skip(t, 'r'));
    assert Alike(Skip(Skip(s, 'r'), 'V'), Skip(Skip(t, 'r'), 'V'));
  }

  lemma TablesAlike(s: St, t: St)
    requires Ok(s) && Ok(t) && Alike(s, t)
    ensures AlikeRes(RunBuiltinTable(s), RunBuiltinTable(t))
    ensures AlikeRes(RunSubstitutionTable(s), RunSubstitutionTable(t))
  {
    hide Print, SubstitutionText, Find, BUILTINS, SUBSTITUTIONS;
  }

  lemma OperatorTableAlike(s: St, t: St)
    requires Ok(s) && Ok(t) && Alike(s, t)
    ensures AlikeRes(RunOperatorTable(s), RunOperatorTable(t))
  {
    hide Print, OperatorText, Find, OPERATORS, IsLower, IsAlpha;
  }

  lemma TerminalAlike(y: Sym, s: St, t: St)
    requires Ok(s) && Ok(t) && Alike(s, t)
    ensures AlikeRes(RunTerminal(y, s), RunTerminal(y, t))
  {
    hide RunNumeral, RunSizedName, RunCVQualifiers, RunOperatorTable, RunBuiltinTable, RunSubstitutionTable, Print,
         PrintPrevious;
    match y
    case Numeral(radix) => NumeralAlike(radix, s, t);
    case SizedName => SizedNameAlike(s, t);
    case CVQualifiers => QualifiersAlike(s, t);
    case OperatorTable => OperatorTableAlike(s, t);
    case BuiltinTable => TablesAlike(s, t);
    case SubstitutionTable => TablesAlike(s, t);
    case _ =>
  }

  /** Buffer, append mode, nest level and previous name have no influence on what is read. */
  lemma {:induction false} SymAlike(y: Sym, s: St, t: St)
    requires Ok(s) && Ok(t) && Alike(s, t)
    ensures AlikeRes(RunSym(y, s), RunSym(y, t))
    decreases |s.src| - s.cur, RankSym(y), SizeSym(y), 1
  {
    hide RunTerminal, RunNt, RunPlus, RunOpt, RunQuiet, RunPrefix;
    match y
    case N(n) => NtAlike(n, s, t);
    case Plus(m) => PlusAlike(m, s, t);
    case Opt(z) => OptAlike(z, s, t);
    case Quiet(p) => QuietAlike(p, s, t);
    case Nested(z) => SymAlike(z, s.(nest := 0), t.(nest := 0));
    case Prefix => PrefixAlike(false, s.(nest := 0), t.(nest := 0));
    case _ => TerminalAlike(y, s, t);
  }

  lemma {:induction false} OptAlike(y: Sym, s: St, t: St)
    requires Ok(s) && Ok(t) && Alike(s, t)
    ensures AlikeRes(RunOpt(y, s), RunOpt(y, t))
    decreases |s.src| - s.cur, RankSym(y), SizeSym(y) + 1, 0
  {
    SymAlike(y, s, t);
  }

  lemma {:induction false} QuietAlike(p: Pat, s: St, t: St)
    requires Ok(s) && Ok(t) && Alike(s, t)
    ensures AlikeRes(RunQuiet(p, s), RunQuiet(p, t))
    decreases |s.src| - s.cur, RankPat(p), SizePat(p), 1
  {
    PatAlike(p, s.(append := false), t.(append := false));
  }

  lemma {:induction false} PatAlike(p: Pat, s: St, t: St)
    requires Ok(s) && Ok(t) && Alike(s, t)
    ensures AlikeRes(RunPat(p, s), RunPat(p, t))
    decreases |s.src| - s.cur, RankPat(p), SizePat(p), 0
  {
    if p.Then? {
      SymAlike(p.head, s, t);
      if RunSym(p.head, s).Match? { PatAlike(p.tail, RunSym(p.head, s).st, RunSym(p.head, t).st); }
    }
  }

  lemma {:induction false} NtAlike(n: Nonterminal, s: St, t: St)
    requires Ok(s) && Ok(t) && Alike(s, t)
    ensures AlikeRes(RunNt(n, s), RunNt(n, t))
    decreases |s.src| - s.cur, Level(n), 1, 0
  {
    NoLeftRecursion(n);
    AltsAlike(n, Rule(n), s, t);
  }

  lemma {:induction false} AltsAlike(n: Nonterminal, alts: Alts, s: St, t: St)
    requires Ok(s) && Ok(t) && Alike(s, t) && Descends(alts, Level(n))
    ensures AlikeRes(RunAlts(n, alts, s), RunAlts(n, alts, t))
    decreases |s.src| - s.cur, Level(n), 0, alts
  {
    if alts.Or? {
      PatAlike(alts.first, s, t);
      var r, q := RunPat(alts.first, s), RunPat(alts.first, t);
      if r.NoMatch? && alts.rest.Or? { AltsAlike(n, alts.rest, Restore(s, r.st), Restore(t, q.st)); }
    }
  }

  lemma {:induction false} PlusAlike(n: Nonterminal, s: St, t: St)
    requires Ok(s) && Ok(t) && Alike(s, t)
    ensures AlikeRes(RunPlus(n, s), RunPlus(n, t))
    decreases |s.src| - s.cur, Level(n), 3, 0
  {
    hide RunNt, RunStar, RunPlus;
    PlusUnfolds(n, s);
    PlusUnfolds(n, t);
    NtAlike(n, s, t);
    if RunNt(n, s).Match? { StarAlike(n, RunNt(n, s).st, RunNt(n, t).st); }
  }

  lemma {:induction false} StarAlike(n: Nonterminal, s: St, t: St)
    requires Ok(s) && Ok(t) && Alike(s, t)
    ensures AlikeRes(RunStar(n, s), RunStar(n, t))
    decreases |s.src| - s.cur, Level(n), 2, 0
  {
    hide RunNt, RunStar;
    StarUnfolds(n, s);
    StarUnfolds(n, t);
    NtAlike(n, s, t);
    if RunNt(n, s).Match? { StarAlike(n, RunNt(n, s).st, RunNt(n, t).st); }
  }

  /** A repetition never fails, and it ends where no further item can be read. */
  lemma {:induction false} StarIsGreedy(n: Nonterminal, s: St)
    requires Ok(s)
    ensures var r := RunStar(n, s); !r.NoMatch? && (r.Match? ==> Ok(r.st) && RunNt(n, r.st).NoMatch?)
    decreases |s.src| - s.cur
  {
    hide RunNt, RunStar;
    StarUnfolds(n, s);
    var r := RunNt(n, s);
    if r.Match? {
      MatchMoves(n, s);
      StarIsGreedy(n, r.st);
    } else if r.NoMatch? {
      NtAlike(n, s, Restore(s, r.st));
    }
  }

  lemma MatchMoves(n: Nonterminal, s: St)
    requires Ok(s)
    ensures var r := RunNt(n, s); r.Match? ==> Ok(r.st) && r.st.src == s.src && s.cur < r.st.cur
  {
  }

  lemma {:induction false} PrefixAlike(has: bool, s: St, t: St)
    requires Ok(s) && Ok(t) && Alike(s, t)
    ensures AlikeRes(RunPrefix(has, s), RunPrefix(has, t))
    decreases |s.src| - s.cur, RankSym(Prefix), 2, 0
  {
    hide RunPrefix, RunPrefixArgs, RunNt, Separate, CancelSeparator;
    PrefixUnfolds(has, s);
    PrefixUnfolds(has, t);
    NtAlike(PrefixItem, Separate(s), Separate(t));
    var r, q := RunNt(PrefixItem, Separate(s)), RunNt(PrefixItem, Separate(t));
    if r.Match? {
      PrefixAlike(true, Deeper(r.st), Deeper(q.st));
    } else if r.NoMatch? && has {
      PrefixArgsAlike(CancelSeparator(r.st), CancelSeparator(q.st));
    }
  }

  lemma {:induction false} PrefixArgsAlike(s: St, t: St)
    requires Ok(s) && Ok(t) && Alike(s, t)
    ensures AlikeRes(RunPrefixArgs(s), RunPrefixArgs(t))
    decreases |s.src| - s.cur, RankSym(Prefix), 1, 0
  {
    hide RunPrefix, RunPrefixArgs, RunNt;
    PrefixArgsUnfold(s);
    PrefixArgsUnfold(t);
    NtAlike(TemplateArgs, s, t);
    if RunNt(TemplateArgs, s).Match? { PrefixAlike(false, RunNt(TemplateArgs, s).st, RunNt(TemplateArgs, t).st); }
  }

  // ---------- faults ----------

  /** The value of the digits from i on. */
  function NumberAt(src: string, i: nat): int
    requires i <= |src|
  {
    Value(Decimal, src[i..DigitsEnd(Decimal, src, i)])
  }

  /** No sign stands before a value of 2 or more, and no number exceeds an int. */
  predicate TameNumbers(src: string) {
    forall i :: 0 <= i <= |src| ==> NumberAt(src, i) <= if i > 0 && src[i - 1] == 'n' then 1 else INT_MAX
  }

  lemma TameNumeral(s: St)
    requires Ok(s) && TameNumbers(s.src)
    ensures var r := RunNumeral(Decimal, s); r.Match? ==> -1 <= r.st.number <= INT_MAX
  {
    var p := Skip(s, 'n').cur;
    if p > s.cur { assert s.src[s.cur..s.cur + 1][0] == 'n'; }
    ValueIsNatural(Decimal, s.src, p, DigitsEnd(Decimal, s.src, p));
    assert NumberAt(s.src, p) <= if p > 0 && s.src[p - 1] == 'n' then 1 else INT_MAX;
    hide Digit, Value, DigitsEnd, TameNumbers;
  }

  // With tame numbers no run ends in a fault.

  lemma TerminalTame(y: Sym, s: St)
    requires Ok(s) && TameNumbers(s.src)
    ensures !RunTerminal(y, s).Fault?
  {
    hide TameNumbers, Print, IdentifierText, DigitsEnd, Value, Skip;
    TameNumeral(s);
  }

  lemma {:induction false} SymTame(y: Sym, s: St)
    requires Ok(s) && TameNumbers(s.src)
    ensures !RunSym(y, s).Fault?
    decreases |s.src| - s.cur, RankSym(y), SizeSym(y), 1
  {
    hide TameNumbers, RunTerminal, RunNt, RunPlus, RunOpt, RunQuiet, RunPrefix;
    match y
    case N(n) => NtTame(n, s);
    case Plus(m) => PlusTame(m, s);
    case Opt(z) => OptTame(z, s);
    case Quiet(p) => QuietTame(p, s);
    case Nested(z) => SymTame(z, s.(nest := 0));
    case Prefix => PrefixTame(false, s.(nest := 0));
    case _ => TerminalTame(y, s);
  }

  lemma {:induction false} OptTame(y: Sym, s: St)
    requires Ok(s) && TameNumbers(s.src)
    ensures !RunOpt(y, s).Fault?
    decreases |s.src| - s.cur, RankSym(y), SizeSym(y) + 1, 0
  {
    hide TameNumbers;
    SymTame(y, s);
  }

  lemma {:induction false} QuietTame(p: Pat, s: St)
    requires Ok(s) && TameNumbers(s.src)
    ensures !RunQuiet(p, s).Fault?
    decreases |s.src| - s.cur, RankPat(p), SizePat(p), 1
  {
    hide TameNumbers;
    PatTame(p, s.(append := false));
  }

  lemma {:induction false} PatTame(p: Pat, s: St)
    requires Ok(s) && TameNumbers(s.src)
    ensures !RunPat(p, s).Fault?
    decreases |s.src| - s.cur, RankPat(p), SizePat(p), 0
  {
    hide TameNumbers;
    if p.Then? {
      SymTame(p.head, s);
      if RunSym(p.head, s).Match? { PatTame(p.tail, RunSym(p.head, s).st); }
    }
  }

  /** Without a signed or oversized number in the source, every nonterminal matches or fails in order. */
  lemma {:induction false} NtTame(n: Nonterminal, s: St)
    requires Ok(s) && TameNumbers(s.src)
    ensures !RunNt(n, s).Fault?
    decreases |s.src| - s.cur, Level(n), 1, 0
  {
    hide TameNumbers;
    NoLeftRecursion(n);
    AltsTame(n, Rule(n), s);
  }

  lemma {:induction false} AltsTame(n: Nonterminal, alts: Alts, s: St)
    requires Ok(s) && TameNumbers(s.src) && Descends(alts, Level(n))
    ensures !RunAlts(n, alts, s).Fault?
    decreases |s.src| - s.cur, Level(n), 0, alts
  {
    hide TameNumbers;
    if alts.Or? {
      PatTame(alts.first, s);
      var r := RunPat(alts.first, s);
      if r.NoMatch? && alts.rest.Or? { AltsTame(n, alts.rest, Restore(s, r.st)); }
    }
  }

  lemma {:induction false} PlusTame(n: Nonterminal, s: St)
    requires Ok(s) && TameNumbers(s.src)
    ensures !RunPlus(n, s).Fault?
    decreases |s.src| - s.cur, Level(n), 3, 0
  {
    hide TameNumbers;
    NtTame(n, s);
    if RunNt(n, s).Match? { StarTame(n, RunNt(n, s).st); }
  }

  lemma {:induction false} StarTame(n: Nonterminal, s: St)
    requires Ok(s) && TameNumbers(s.src)
    ensures !RunStar(n, s).Fault?
    decreases |s.src| - s.cur, Level(n), 2, 0
  {
    hide TameNumbers, RunAlts, RunPat, RunSym;
    NtTame(n, s);
    if RunNt(n, s).Match? { StarTame(n, RunNt(n, s).st); }
  }

  lemma {:induction false} PrefixTame(has: bool, s: St)
    requires Ok(s) && TameNumbers(s.src)
    ensures !RunPrefix(has, s).Fault?
    decreases |s.src| - s.cur, RankSym(Prefix), 2, 0
  {
    hide TameNumbers;
    NtTame(PrefixItem, Separate(s));
    var r := RunNt(PrefixItem, Separate(s));
    if r.Match? {
      PrefixTame(true, Deeper(r.st));
    } else if has {
      PrefixArgsTame(CancelSeparator(r.st));
    }
  }

  lemma {:induction false} PrefixArgsTame(s: St)
    requires Ok(s) && TameNumbers(s.src)
    ensures !RunPrefixArgs(s).Fault?
    decreases |s.src| - s.cur, RankSym(Prefix), 1, 0
  {
    hide TameNumbers;
    NtTame(TemplateArgs, s);
    if RunNt(TemplateArgs, s).Match? { PrefixTame(false, RunNt(TemplateArgs, s).st); }
  }
}
