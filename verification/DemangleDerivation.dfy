/** Grammar soundness: what the demangler accepts is derivable from the grammar. */
module DemangleDerivation {
  import opened DemangleGrammar
  import opened DemangleSpec

  /** The text under a derivation. */
  function Yield(t: Tree): string {
    match t
    case Eps => ""
    case Text(w) => w
    case Node(_, _, body) => Yield(body)
    case Pair(a, b) => Yield(a) + Yield(b)
  }

  predicate AllDigits(radix: Radix, w: string) {
    w != "" && forall c :: c in w ==> Digit(radix, c) >= 0
  }

  /** Digits, with a sign in front if they are decimal. */
  predicate IsNumeral(radix: Radix, w: string) {
    AllDigits(radix, w) || (radix == Decimal && w != "" && w[0] == 'n' && AllDigits(radix, w[1..]))
  }

  function NumeralValue(w: string): int {
    if w != "" && w[0] == 'n' then -Value(Decimal, w[1..]) else Value(Decimal, w)
  }

  function Qualifiers(r: bool, v: bool, k: bool): string {
    (if r then "r" else "") + (if v then "V" else "") + (if k then "K" else "")
  }

  predicate IsAlternative(p: Pat, alts: Alts) {
    alts.Or? && (p == alts.first || IsAlternative(p, alts.rest))
  }

  /** t derives a string from the symbol y. The order of alternatives and greed play no part in it. */
  predicate DerivesSym(y: Sym, t: Tree)
    decreases t, SizeSym(y)
  {
    match y
    case N(n) => t.Node? && t.n == n && IsAlternative(t.p, Rule(n)) && DerivesPat(t.p, t.body)
    case Lit(w) => t == Text(w)
    case Class(cs) => t.Text? && |t.w| == 1 && t.w[0] in cs
    case Numeral(radix) => t.Text? && IsNumeral(radix, t.w)
    case SizedName => t.Pair? && t.a.Text? && t.b.Text? && IsNumeral(Decimal, t.a.w) && NumeralValue(t.a.w) == |t.b.w|
    case CVQualifiers => t.Text? && t.w != "" && exists r, v, k :: t.w == Qualifiers(r, v, k)
    case OperatorTable => t.Text? && exists e :: e in OPERATORS && t.w == [e.a, e.b]
    case BuiltinTable => t.Text? && exists e :: e in BUILTINS && t.w == [e.a]
    case SubstitutionTable => t.Text? && exists e :: e in SUBSTITUTIONS && t.w == [e.b]
    case Opt(z) => t.Eps? || DerivesSym(z, t)
    case Plus(m) => t.Pair? && DerivesSym(N(m), t.a) && DerivesStar(m, t.b)
    case Prefix => DerivesPrefix(false, t)
    case Suffix => t.Text? && (t.w == "" || t.w[0] == '@')
    case Emit(_) => t.Eps?
    case EmitPrevious => t.Eps?
    case Quiet(p) => DerivesPat(p, t)
    case Nested(z) => DerivesSym(z, t)
  }

  predicate DerivesPat(p: Pat, t: Tree)
    decreases t, SizePat(p)
  {
    if p.Done? then t.Eps? else t.Pair? && DerivesSym(p.head, t.a) && DerivesPat(p.tail, t.b)
  }

  predicate DerivesStar(m: Nonterminal, t: Tree)
    decreases t, 0
  {
    t.Eps? || (t.Pair? && DerivesSym(N(m), t.a) && DerivesStar(m, t.b))
  }

  /** Items, and template arguments after items. */
  predicate DerivesPrefix(has: bool, t: Tree)
    decreases t, 0
  {
    t.Eps? || (t.Pair? && ((DerivesSym(N(PrefixItem), t.a) && DerivesPrefix(true, t.b))
                           || (has && DerivesSym(N(TemplateArgs), t.a) && DerivesPrefix(false, t.b))))
  }

  /** r is a match from s, and its tree derives what was read. */
  predicate Reads(s: St, r: Res) {
    r.Match? ==> 0 <= s.cur <= r.st.cur <= |s.src| && Yield(r.tree) == s.src[s.cur..r.st.cur]
  }

  lemma ReadsJoined(s: St, r: Res, rest: Res)
    requires r.Match? && Reads(s, r) && (rest.Match? ==> rest.st.cur >= r.st.cur) && r.st.src == s.src
    requires Reads(r.st, rest)
    ensures Reads(s, Joined(r.tree, rest))
  {
    if rest.Match? {
      assert s.src[s.cur..r.st.cur] + s.src[r.st.cur..rest.st.cur] == s.src[s.cur..rest.st.cur];
    }
  }

  /** The end of a repetition. */
  lemma NothingRead(s: St)
    requires Ok(s)
    ensures forall t: St {:trigger Restore(s, t)} :: Reads(s, Match(Restore(s, t), Eps))
  {
  }

  lemma DigitsSound(radix: Radix, src: string, p: nat)
    requires p <= |src|
    ensures var q := DigitsEnd(radix, src, p); q > p ==> AllDigits(radix, src[p..q])
  {
    var q := DigitsEnd(radix, src, p);
    var w := src[p..q];
    forall c | c in w
      ensures Digit(radix, c) >= 0
    {
      var i :| 0 <= i < |w| && w[i] == c;
      assert src[p + i] == c;
    }
  }

  /** Digits do not begin with a sign; a sign is what comes before them. */
  lemma SignSound(s: St, q: nat)
    requires Ok(s) && Skip(s, 'n').cur < q <= |s.src| && AllDigits(Decimal, s.src[Skip(s, 'n').cur..q])
    ensures var p, w := Skip(s, 'n').cur, s.src[s.cur..q];
            w != "" && (w[0] == 'n' <==> p > s.cur) && (p > s.cur ==> w[1..] == s.src[p..q])
  {
    var p := Skip(s, 'n').cur;
    if p == s.cur {
      assert s.src[p] in s.src[p..q];
    } else {
      assert s.src[s.cur..s.cur + 1][0] == 'n';
    }
  }

  /** A numeral reads digits, behind a sign if it is decimal, and remembers their value. */
  predicate ReadsNumeral(radix: Radix, s: St, r: Res) {
    Reads(s, r)
    && (r.Match? ==> r.tree.Text? && IsNumeral(radix, r.tree.w)
                     && (radix == Decimal ==> r.st.number == NumeralValue(r.tree.w)))
  }

  lemma DecimalReads(s: St)
    requires Ok(s)
    ensures ReadsNumeral(Decimal, s, RunNumeral(Decimal, s))
  {
    hide RunNumeral, Skip, DigitsEnd, AllDigits, Value;
    var p := Skip(s, 'n').cur;
    var q := DigitsEnd(Decimal, s.src, p);
    NumberUnfolds(s);
    DigitsSound(Decimal, s.src, p);
    if q > p { SignSound(s, q); }
  }

  lemma NumeralReads(radix: Radix, s: St)
    requires Ok(s)
    ensures ReadsNumeral(radix, s, RunNumeral(radix, s))
  {
    if radix == Decimal {
      DecimalReads(s);
      hide RunNumeral, ReadsNumeral;
    } else {
      DigitsSound(radix, s.src, s.cur);
      hide Skip, DigitsEnd, AllDigits, Value;
    }
  }

  /** A source name in a derivation has a positive length without a sign, as the BNF asks, exactly if it is not
      empty. */
  lemma LengthIsPositive(t: Tree)
    requires DerivesSym(SizedName, t)
    ensures t.b.w != "" <==> AllDigits(Decimal, t.a.w) && Value(Decimal, t.a.w) > 0
  {
    var w := t.a.w;
    if AllDigits(Decimal, w) {
      assert w[0] in w;
    } else {
      var digits := w[1..];
      assert forall i :: 0 <= i < |digits| ==> digits[i] in digits;
      ValueIsNatural(Decimal, digits, 0, |digits|);
      assert digits[0..|digits|] == digits;
    }
  }

  lemma {:induction false} NumeralSound(radix: Radix, s: St)
    requires Ok(s)
    ensures var r := RunNumeral(radix, s); Reads(s, r) && (r.Match? ==> DerivesSym(Numeral(radix), r.tree))
  {
    NumeralReads(radix, s);
    hide RunNumeral, IsNumeral;
  }

  lemma SizedNameSound(s: St)
    requires Ok(s)
    ensures var r := RunSizedName(s);
            Reads(s, r) && (r.Match? ==> DerivesSym(SizedName, r.tree))
  {
    hide RunNumeral, IsNumeral, NumeralValue, Print, IdentifierText;
    NumeralReads(Decimal, s);
    var r1 := RunNumeral(Decimal, s);
    if r1.Match? && -1 <= r1.st.number <= INT_MAX {
      var r2 := RunIdentifier(r1.st);
      if r2.Match? { ReadsJoined(s, r1, r2); }
    }
  }

  lemma FoundInTable(table: seq<Abbreviation>, k: nat, key: Key)
    requires k <= |table|
    ensures var i := Find(table, k, key); i < |table| ==> table[i] in table && Hits(table[i], key)
    decreases |table| - k
  {
    if k < |table| && !Hits(table[k], key) { FoundInTable(table, k + 1, key); }
  }

  lemma OperatorTableSound(s: St)
    requires Ok(s)
    ensures var r := RunOperatorTable(s); Reads(s, r) && (r.Match? ==> DerivesSym(OperatorTable, r.tree))
  {
    hide OPERATORS, Print, OperatorText, SubstitutionText;
    var r := RunOperatorTable(s);
    if r.Match? {
      var key := Both(s.src[s.cur], s.src[s.cur + 1]);
      FoundInTable(OPERATORS, 0, key);
      var e := OPERATORS[Find(OPERATORS, 0, key)];
      assert e in OPERATORS && r.tree.w == [e.a, e.b];
    }
  }

  lemma BuiltinTableSound(s: St)
    requires Ok(s)
    ensures var r := RunBuiltinTable(s); Reads(s, r) && (r.Match? ==> DerivesSym(BuiltinTable, r.tree))
  {
    hide BUILTINS, Print, OperatorText, SubstitutionText;
    var r := RunBuiltinTable(s);
    if r.Match? {
      var key := First(s.src[s.cur]);
      FoundInTable(BUILTINS, 0, key);
      var e := BUILTINS[Find(BUILTINS, 0, key)];
      assert e in BUILTINS && r.tree.w == [e.a];
    }
  }

  lemma SubstitutionTableSound(s: St)
    requires Ok(s)
    ensures var r := RunSubstitutionTable(s); Reads(s, r) && (r.Match? ==> DerivesSym(SubstitutionTable, r.tree))
  {
    hide SUBSTITUTIONS, Print, OperatorText, SubstitutionText;
    var r := RunSubstitutionTable(s);
    if r.Match? {
      var key := Second(s.src[s.cur]);
      FoundInTable(SUBSTITUTIONS, 0, key);
      var e := SUBSTITUTIONS[Find(SUBSTITUTIONS, 0, key)];
      assert e in SUBSTITUTIONS && r.tree.w == [e.b];
    }
  }

  lemma SkipYields(s: St, c: char)
    requires Ok(s)
    ensures s.src[s.cur..Skip(s, c).cur] == if Skip(s, c).cur > s.cur then [c] else ""
  {
  }

  lemma Slices(src: string, a: nat, b: nat, c: nat, d: nat)
    requires a <= b <= c <= d <= |src|
    ensures src[a..d] == src[a..b] + src[b..c] + src[c..d]
  {
  }

  lemma QualifiersSound(s: St)
    requires Ok(s)
    ensures var r := RunCVQualifiers(s); Reads(s, r) && (r.Match? ==> DerivesSym(CVQualifiers, r.tree))
  {
    var a, b := Skip(s, 'r'), Skip(Skip(s, 'r'), 'V');
    var c := Skip(b, 'K');
    SkipYields(s, 'r');
    SkipYields(a, 'V');
    SkipYields(b, 'K');
    hide Skip;
    Slices(s.src, s.cur, a.cur, b.cur, c.cur);
    var w := Qualifiers(a.cur > s.cur, b.cur > a.cur, c.cur > b.cur);
    assert s.src[s.cur..c.cur] == w;
  }

  lemma TerminalSound(y: Sym, s: St)
    requires Ok(s) && !y.N? && !y.Plus? && !y.Opt? && !y.Quiet? && !y.Nested? && !y.Prefix?
    ensures var r := RunTerminal(y, s); Reads(s, r) && (r.Match? ==> DerivesSym(y, r.tree))
  {
    hide RunNumeral, RunSizedName, RunCVQualifiers, RunOperatorTable, RunBuiltinTable, RunSubstitutionTable, Print,
         PrintPrevious, IsNumeral, OPERATORS, BUILTINS, SUBSTITUTIONS;
    match y
    case Numeral(radix) => NumeralSound(radix, s);
    case SizedName => SizedNameSound(s);
    case OperatorTable => OperatorTableSound(s);
    case BuiltinTable => BuiltinTableSound(s);
    case SubstitutionTable => SubstitutionTableSound(s);
    case CVQualifiers => QualifiersSound(s);
    case Suffix =>
      if Starts(s.src, s.cur, "@") { assert s.src[s.cur..s.cur + 1][0] == s.src[s.cur]; }
    case _ =>
  }

  // ---------- the induction over the run ----------

  lemma {:induction false} SymSound(y: Sym, s: St)
    requires Ok(s)
    ensures var r := RunSym(y, s); Reads(s, r) && (r.Match? ==> DerivesSym(y, r.tree))
    decreases |s.src| - s.cur, RankSym(y), SizeSym(y), 1
  {
    hide RunTerminal, RunNt, RunPlus, RunOpt, RunQuiet, RunPrefix, Yield;
    match y
    case N(n) => NtSound(n, s);
    case Plus(m) => PlusSound(m, s);
    case Opt(z) => OptSound(z, s);
    case Quiet(p) => QuietSound(p, s);
    case Nested(z) => SymSound(z, s.(nest := 0));
    case Prefix => PrefixSound(false, s.(nest := 0));
    case _ => TerminalSound(y, s);
  }

  lemma {:induction false} OptSound(y: Sym, s: St)
    requires Ok(s)
    ensures var r := RunOpt(y, s); Reads(s, r) && (r.Match? ==> r.tree.Eps? || DerivesSym(y, r.tree))
    decreases |s.src| - s.cur, RankSym(y), SizeSym(y) + 1, 0
  {
    SymSound(y, s);
  }

  lemma {:induction false} QuietSound(p: Pat, s: St)
    requires Ok(s)
    ensures var r := RunQuiet(p, s); Reads(s, r) && (r.Match? ==> DerivesPat(p, r.tree))
    decreases |s.src| - s.cur, RankPat(p), SizePat(p), 1
  {
    PatSound(p, s.(append := false));
  }

  lemma {:induction false} PatSound(p: Pat, s: St)
    requires Ok(s)
    ensures var r := RunPat(p, s); Reads(s, r) && (r.Match? ==> DerivesPat(p, r.tree))
    decreases |s.src| - s.cur, RankPat(p), SizePat(p), 0
  {
    if p.Then? {
      SymSound(p.head, s);
      var r := RunSym(p.head, s);
      if r.Match? {
        PatSound(p.tail, r.st);
        ReadsJoined(s, r, RunPat(p.tail, r.st));
      }
    }
  }

  /** Everything a nonterminal reads is derivable from it. */
  lemma {:induction false} NtSound(n: Nonterminal, s: St)
    requires Ok(s)
    ensures var r := RunNt(n, s); Reads(s, r) && (r.Match? ==> DerivesSym(N(n), r.tree))
    decreases |s.src| - s.cur, Level(n), 1, 0
  {
    NoLeftRecursion(n);
    AltsSound(n, Rule(n), s);
  }

  lemma {:induction false} AltsSound(n: Nonterminal, alts: Alts, s: St)
    requires Ok(s) && Descends(alts, Level(n))
    ensures var r := RunAlts(n, alts, s);
            Reads(s, r) && (r.Match? ==> r.tree.Node? && r.tree.n == n && IsAlternative(r.tree.p, alts)
                                         && DerivesPat(r.tree.p, r.tree.body))
    decreases |s.src| - s.cur, Level(n), 0, alts
  {
    if alts.Or? {
      PatSound(alts.first, s);
      var r := RunPat(alts.first, s);
      if r.NoMatch? && alts.rest.Or? { AltsSound(n, alts.rest, Restore(s, r.st)); }
    }
  }

  lemma {:induction false} PlusSound(n: Nonterminal, s: St)
    requires Ok(s)
    ensures var r := RunPlus(n, s); Reads(s, r) && (r.Match? ==> DerivesSym(Plus(n), r.tree))
    decreases |s.src| - s.cur, Level(n), 3, 0
  {
    hide RunPlus, RunStar, RunNt, Reads, DerivesStar;
    PlusUnfolds(n, s);
    NtSound(n, s);
    var r := RunNt(n, s);
    if r.Match? {
      StarSound(n, r.st);
      ReadsJoined(s, r, RunStar(n, r.st));
    }
  }

  lemma {:induction false} StarSound(n: Nonterminal, s: St)
    requires Ok(s)
    ensures var r := RunStar(n, s); Reads(s, r) && (r.Match? ==> DerivesStar(n, r.tree))
    decreases |s.src| - s.cur, Level(n), 2, 0
  {
    hide RunStar, RunNt, Reads;
    StarUnfolds(n, s);
    NothingRead(s);
    NtSound(n, s);
    var r := RunNt(n, s);
    if r.Match? {
      StarSound(n, r.st);
      ReadsJoined(s, r, RunStar(n, r.st));
    }
  }

  lemma {:induction false} PrefixSound(has: bool, s: St)
    requires Ok(s)
    ensures var r := RunPrefix(has, s); Reads(s, r) && (r.Match? ==> DerivesPrefix(has, r.tree))
    decreases |s.src| - s.cur, RankSym(Prefix), 2, 0
  {
    hide RunPrefix, RunPrefixArgs, RunNt, Separate, CancelSeparator;
    PrefixUnfolds(has, s);
    var s0 := Separate(s);
    NtSound(PrefixItem, s0);
    var r := RunNt(PrefixItem, s0);
    if r.Match? {
      PrefixSound(true, Deeper(r.st));
      ReadsJoined(s0, r, RunPrefix(true, Deeper(r.st)));
    } else if r.NoMatch? && has {
      PrefixArgsSound(CancelSeparator(r.st));
    }
  }

  lemma {:induction false} PrefixArgsSound(s: St)
    requires Ok(s)
    ensures var r := RunPrefixArgs(s); Reads(s, r) && (r.Match? ==> DerivesPrefix(true, r.tree))
    decreases |s.src| - s.cur, RankSym(Prefix), 1, 0
  {
    hide RunPrefix, RunPrefixArgs, RunNt;
    PrefixArgsUnfold(s);
    NtSound(TemplateArgs, s);
    var r := RunNt(TemplateArgs, s);
    if r.Match? {
      PrefixSound(false, r.st);
      ReadsJoined(s, r, RunPrefix(false, r.st));
    }
  }
}
