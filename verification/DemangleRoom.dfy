/** A buffer of (n + 1)(n + 24) characters is enough for a source of n, and then the buffer shows exactly the
    translation of the derivation. */
module DemangleRoom {
  import opened DemangleGrammar
  import opened DemangleSpec
  import opened DemangleOutput

  /** What one character of source may cost in output: a constructor repeats an earlier name. */
  function Price(s: St): int { |s.src| + 24 }

  function Times(k: int, s: St): int { k * Price(s) }

  /** The room left, less a unit for every character still to be read. */
  function Reserve(s: St): int
    requires Ok(s)
  {
    |s.out.buf| - s.out.cur - Times(Left(s), s)
  }

  /** The buffer shows the text, with printing on. */
  predicate Fit(s: St, c: Ctx) {
    Ok(s) && s.append && Shows(s.out, c) && s.out.prevLen <= |s.src| + 21
  }

  // ---------- what the symbols of a production add to the reserve, at least ----------

  /** In units of source characters. */
  function Units(y: Sym): int
  {
    match y
    case Lit(w) => |w|
    case Class(_) => 1 case Numeral(_) => 1 case SizedName => 1 case CVQualifiers => 1
    case OperatorTable => 2 case BuiltinTable => 1 case SubstitutionTable => 1
    case EmitPrevious => -1
    case Quiet(p) => if NullablePat(p) then 0 else 1
    case Nested(z) => Units(z)
    case _ => 0
  }

  /** And in single characters of output. */
  function Extra(y: Sym): int
  {
    match y
    case N(_) => 4 case Plus(_) => 4
    case SizedName => -1
    case OperatorTable => -30 case BuiltinTable => -19 case SubstitutionTable => -26
    case Emit(w) => -|w| - 1
    case EmitPrevious => 2
    case Nested(z) => Extra(z)
    case _ => 0
  }

  predicate Affordable(y: Sym) {
    match y
    case Emit(w) => |w| <= 20
    case Opt(z) => z.N? || z.Lit? || z.CVQualifiers?
    case Nested(z) => Affordable(z)
    case _ => true
  }

  /** Nothing is printed before it has been paid for, and in the end 4 characters are left over. */
  predicate Pays(p: Pat, units: int, extra: int) {
    units >= 0
    && if p.Done? then 24 * units + extra >= 4
       else 24 * units + extra >= 0 && Affordable(p.head)
            && Pays(p.tail, units + Units(p.head), extra + Extra(p.head))
  }

  predicate AllPay(alts: Alts) {
    alts.Or? ==> Pays(alts.first, 0, 0) && AllPay(alts.rest)
  }

  /** Every alternative of every nonterminal pays for what it prints. */
  lemma RulePays(n: Nonterminal)
    ensures AllPay(Rule(n))
  {
    hide AllPay, Rule;
    EncodingsPay();
    UnscopedNamesPay();
    SourceNamesPay();
    PrefixItemPays();
    LocalNamePays();
    OperatorNamePays();
    SpecialNamePays();
    OffsetsPay();
    NumbersPay();
    CtorDtorNamePays();
    TypePays();
    FunctionTypePays();
    BareFunctionTypePays();
    SmallTypesPay();
    ArrayTypePays();
    PointerToMemberTypePays();
    TemplateParamPays();
    TemplateTemplateParamPays();
    TemplateArgsPay();
    TemplateArgPays();
    ExpressionPays();
    ExprPrimaryPays();
    SubstitutionPays();
  }

  /** One step along a production. */
  lemma PaysUnfolds()
    ensures forall y, p, u, x {:trigger Pays(Then(y, p), u, x)} ::
              Pays(Then(y, p), u, x)
              <==> u >= 0 && 24 * u + x >= 0 && Affordable(y) && Pays(p, u + Units(y), x + Extra(y))
    ensures forall u, x {:trigger Pays(Done, u, x)} :: Pays(Done, u, x) <==> u >= 0 && 24 * u + x >= 4
    ensures forall p, rest {:trigger AllPay(Or(p, rest))} :: AllPay(Or(p, rest)) <==> Pays(p, 0, 0) && AllPay(rest)
    ensures AllPay(Fail)
  {
  }

  lemma EncodingsPay()
    ensures AllPay(Rule(MangledName)) && AllPay(Rule(Encoding)) && AllPay(Rule(Name))
  {
    hide Pays, AllPay;
    PaysUnfolds();
  }

  lemma UnscopedNamesPay()
    ensures AllPay(Rule(UnscopedName)) && AllPay(Rule(UnscopedTemplateName)) && AllPay(Rule(NestedName))
  {
    hide Pays, AllPay;
    PaysUnfolds();
  }

  lemma SourceNamesPay()
    ensures AllPay(Rule(UnqualifiedName)) && AllPay(Rule(SourceName)) && AllPay(Rule(LocalSourceName))
  {
    hide Pays, AllPay;
    PaysUnfolds();
  }

  lemma PrefixItemPays()
    ensures AllPay(Rule(PrefixItem))
  {
    hide Pays, AllPay;
    PaysUnfolds();
  }

  lemma LocalNamePays()
    ensures AllPay(Rule(LocalName))
  {
    hide Pays, AllPay;
    PaysUnfolds();
  }

  lemma OperatorNamePays()
    ensures AllPay(Rule(OperatorName))
  {
    hide Pays, AllPay;
    PaysUnfolds();
  }

  lemma SpecialNamePays()
    ensures AllPay(Rule(SpecialName))
  {
    hide Pays, AllPay;
    PaysUnfolds();
  }

  lemma OffsetsPay()
    ensures AllPay(Rule(CallOffset)) && AllPay(Rule(NVOffset))
  {
    hide Pays, AllPay;
    PaysUnfolds();
  }

  lemma NumbersPay()
    ensures AllPay(Rule(VOffset)) && AllPay(Rule(Discriminator))
  {
    hide Pays, AllPay;
    PaysUnfolds();
  }

  lemma CtorDtorNamePays()
    ensures AllPay(Rule(CtorDtorName))
  {
    hide Pays, AllPay;
    PaysUnfolds();
  }

  lemma TypePays()
    ensures AllPay(Rule(Type))
  {
    hide Pays, AllPay;
    PaysUnfolds();
  }

  lemma FunctionTypePays()
    ensures AllPay(Rule(FunctionType))
  {
    hide Pays, AllPay;
    PaysUnfolds();
  }

  lemma BareFunctionTypePays()
    ensures AllPay(Rule(BareFunctionType))
  {
    hide Pays, AllPay;
    PaysUnfolds();
  }

  lemma SmallTypesPay()
    ensures AllPay(Rule(BuiltinType)) && AllPay(Rule(ClassEnumType))
  {
    hide Pays, AllPay;
    PaysUnfolds();
  }

  lemma ArrayTypePays()
    ensures AllPay(Rule(ArrayType))
  {
    hide Pays, AllPay;
    PaysUnfolds();
  }

  lemma PointerToMemberTypePays()
    ensures AllPay(Rule(PointerToMemberType))
  {
    hide Pays, AllPay;
    PaysUnfolds();
  }

  lemma TemplateParamPays()
    ensures AllPay(Rule(TemplateParam))
  {
    hide Pays, AllPay;
    PaysUnfolds();
  }

  lemma TemplateTemplateParamPays()
    ensures AllPay(Rule(TemplateTemplateParam))
  {
    hide Pays, AllPay;
    PaysUnfolds();
  }

  lemma TemplateArgsPay()
    ensures AllPay(Rule(TemplateArgs))
  {
    hide Pays, AllPay;
    PaysUnfolds();
  }

  lemma TemplateArgPays()
    ensures AllPay(Rule(TemplateArg))
  {
    hide Pays, AllPay;
    PaysUnfolds();
  }

  lemma ExpressionPays()
    ensures AllPay(Rule(Expression))
  {
    hide Pays, AllPay;
    PaysUnfolds();
  }

  lemma ExprPrimaryPays()
    ensures AllPay(Rule(ExprPrimary))
  {
    hide Pays, AllPay;
    PaysUnfolds();
  }

  lemma SubstitutionPays()
    ensures AllPay(Rule(Substitution))
  {
    hide Pays, AllPay;
    PaysUnfolds();
  }

  // ---------- arithmetic of the reserve ----------

  lemma TimesIs(k: int, s: St)
    ensures k >= 0 ==> Times(k, s) >= 24 * k
    ensures k >= 1 ==> Times(k, s) >= Price(s)
    ensures Times(0, s) == 0 && Times(1, s) == Price(s) && Times(2, s) == 2 * Price(s) && Times(-1, s) == -Price(s)
  {
    assert k * Price(s) == k * 24 + k * |s.src|;
    assert k * Price(s) == Price(s) + (k - 1) * Price(s);
  }

  lemma TimesAdd(k: int, l: int, s: St)
    ensures Times(k + l, s) == Times(k, s) + Times(l, s)
  {
  }

  lemma TimesSame(k: int, s: St, t: St)
    requires s.src == t.src
    ensures Times(k, s) == Times(k, t)
  {
  }

  /** Reading j characters adds j units, printing takes off what was printed. */
  lemma Moved(s: St, t: St, j: nat)
    requires Ok(s) && Ok(t) && t.src == s.src && |t.out.buf| == |s.out.buf| && t.cur == s.cur + j
    ensures Reserve(t) == Reserve(s) + Times(j, s) - (t.out.cur - s.out.cur)
  {
    hide Times;
    TimesAdd(Left(t), j, s);
    TimesSame(Left(t), s, t);
  }

  /** The room is at least the reserve plus a unit for each of the k next characters. */
  lemma Free(s: St, k: nat)
    requires Ok(s) && k <= Left(s)
    ensures |s.out.buf| - s.out.cur >= Reserve(s) + Times(k, s)
  {
    hide Times;
    TimesAdd(k, Left(s) - k, s);
    TimesIs(Left(s) - k, s);
  }

  lemma PrintFits(s: St, c: Ctx, w: string)
    requires Fit(s, c) && s.out.cur + |w| + 1 < |s.out.buf| && |w| <= |s.src| + 21
    ensures var t := Print(s, w);
            Fit(t, Said(c, w)) && s.out.cur <= t.out.cur <= s.out.cur + |w| + 1 && TextKept(s.out, t.out)
  {
    if w != "" { SayShows(s.out, c, w); }
  }

  lemma PrintPreviousFits(s: St, c: Ctx)
    requires Fit(s, c) && Reserve(s) >= Price(s)
    ensures var t := PrintPrevious(s);
            Fit(t, Said(c, c.previous)) && s.out.cur <= t.out.cur <= s.out.cur + |s.src| + 22 && TextKept(s.out, t.out)
  {
    hide Times;
    Free(s, 0);
    TimesIs(0, s);
    if s.out.prevLen > 0 {
      SayPreviousIsSay(s.out, c);
      SayShows(s.out, c, c.previous);
    }
  }

  /** Going back to s after a run that kept its text. */
  lemma RestoreFits(s: St, t: St, c: Ctx)
    requires Fit(s, c) && TextKept(s.out, t.out)
    ensures Fit(Restore(s, t), c) && Reserve(Restore(s, t)) == Reserve(s)
  {
    if s.out.prevLen > 0 {
      NameKept(s.out, t.out, s.out.prevName, s.out.prevLen);
    }
  }

  /** What y adds to the reserve, at least. */
  function Credit(y: Sym, s: St): int { Times(Units(y), s) + Extra(y) }

  lemma CreditIs(y: Sym, s: St)
    ensures match y
            case Lit(w) => Credit(y, s) == Times(|w|, s)
            case Emit(w) => Credit(y, s) == -|w| - 1
            case EmitPrevious => Credit(y, s) == 2 - Price(s)
            case OperatorTable => Credit(y, s) == 2 * Price(s) - 30
            case BuiltinTable => Credit(y, s) == Price(s) - 19
            case SubstitutionTable => Credit(y, s) == Price(s) - 26
            case SizedName => Credit(y, s) == Price(s) - 1
            case N(_) => Credit(y, s) == 4
            case Plus(_) => Credit(y, s) == 4
            case Quiet(p) => Credit(y, s) == if NullablePat(p) then 0 else Price(s)
            case Nested(z) => Credit(y, s) == Credit(z, s)
            case Class(_) => Credit(y, s) == Price(s)
            case Numeral(_) => Credit(y, s) == Price(s)
            case CVQualifiers => Credit(y, s) == Price(s)
            case _ => Credit(y, s) == 0
  {
    TimesIs(0, s);
    hide Times;
  }

  // ---------- terminals ----------

  /** A run from s keeps the text, and a match prints w and leaves enough in the reserve. */
  predicate Affords(y: Sym, s: St, c: Ctx, r: Res)
    requires Fit(s, c)
  {
    (!r.Fault? ==> Ok(r.st) && r.st.src == s.src && TextKept(s.out, r.st.out))
    && (r.Match? ==> Fit(r.st, Spell(y, r.tree, c)) && s.out.cur <= r.st.out.cur
                     && Reserve(r.st) >= Reserve(s) + Credit(y, s))
  }

  lemma IdentifierShort(w: string)
    ensures |IdentifierText(w)| <= 24 * |w| && (|w| <= 21 ==> |IdentifierText(w)| <= 21)
    ensures |IdentifierText(w)| <= |w| + 21 && (|w| > 21 ==> |IdentifierText(w)| <= |w|)
  {
  }

  lemma IdentifierFits(s: St, c: Ctx)
    requires Fit(s, c) && Reserve(s) >= Price(s) && s.number >= -1
    ensures var r := RunIdentifier(s);
            r.Match? ==> r.tree.Text? && Fit(r.st, Said(c, IdentifierText(r.tree.w))) && TextKept(s.out, r.st.out)
                         && r.st.src == s.src && r.st.cur == s.cur + |r.tree.w|
                         && s.out.cur <= r.st.out.cur <= s.out.cur + |IdentifierText(r.tree.w)| + 1
  {
    hide Times;
    var r := RunIdentifier(s);
    if r.Match? {
      Free(s, 0);
      TimesIs(0, s);
      var w := IdentifierText(r.tree.w);
      IdentifierShort(r.tree.w);
      hide IdentifierText, Reserve;
      PrintFits(s, c, w);
      hide Print, Shows, TextKept, Said;
    }
  }

  lemma SizedNamePays(s: St, t: St, u: St, digits: nat, len: nat, printed: int)
    requires Ok(s) && Ok(t) && Ok(u) && s.src == t.src == u.src && |s.out.buf| == |t.out.buf| == |u.out.buf|
    requires digits > 0 && t.cur == s.cur + digits && u.cur == t.cur + len && s.out.cur == t.out.cur
    requires u.out.cur <= t.out.cur + printed + 1 && printed <= 24 * len
    ensures Reserve(t) >= Reserve(s) && Reserve(u) >= Reserve(s) + Price(s) - 1
  {
    Moved(s, t, digits);
    Moved(t, u, len);
    hide Times, Reserve;
    TimesIs(digits, s);
    TimesIs(len, t);
  }

  lemma SizedNameAffords(s: St, c: Ctx)
    requires Fit(s, c) && Reserve(s) >= Price(s)
    ensures Affords(SizedName, s, c, RunSizedName(s))
  {
    hide Times;
    CreditIs(SizedName, s);
    hide Credit;
    var r1 := RunNumeral(Decimal, s);
    if r1.Match? && -1 <= r1.st.number <= INT_MAX {
      var j := r1.st.cur - s.cur;
      hide RunNumeral, RunIdentifier, IdentifierText, Shows, TextKept, Said, Reserve;
      SizedNamePays(s, r1.st, r1.st, j, 0, 0);
      IdentifierFits(r1.st, c);
      var r := RunIdentifier(r1.st);
      if r.Match? {
        IdentifierShort(r.tree.w);
        SizedNamePays(s, r1.st, r.st, j, |r.tree.w|, |IdentifierText(r.tree.w)|);
      }
    }
  }

  lemma OperatorTextFits(s: St, c: Ctx, w: ShortText)
    requires Fit(s, c) && s.out.cur + 40 < |s.out.buf|
    ensures var t := OperatorText(w, s);
            Fit(t, SaidOperator(c, w)) && s.out.cur <= t.out.cur <= s.out.cur + 30 && TextKept(s.out, t.out)
  {
    PrintFits(s, c, "operator");
    var s1, c1 := Print(s, "operator"), Said(c, "operator");
    PrintFits(s1, c1, " ");
    var spaced := w != "" && IsLower(w[0]);
    var s2, c2 := if spaced then Print(s1, " ") else s1, if spaced then Said(c1, " ") else c1;
    PrintFits(s2, c2, w);
    hide Print, Said, Fit;
    TextKeptTrans(s.out, s1.out, s2.out);
    TextKeptTrans(s.out, s2.out, Print(s2, w).out);
  }

  lemma SubstitutionTextFits(s: St, c: Ctx, w: ShortText)
    requires Fit(s, c) && s.out.cur + 40 < |s.out.buf|
    ensures var t := SubstitutionText(w, s);
            Fit(t, SaidSubstitution(c, w)) && s.out.cur <= t.out.cur <= s.out.cur + 26 && TextKept(s.out, t.out)
  {
    PrintFits(s, c, "std");
    var s1, c1 := Print(s, "std"), Said(c, "std");
    PrintFits(s1, c1, "::");
    var s2, c2 := Print(s1, "::"), Said(c1, "::");
    PrintFits(s2, c2, w);
    hide Print, Said, Fit;
    TextKeptTrans(s.out, s1.out, s2.out);
    TextKeptTrans(s.out, s2.out, Print(s2, w).out);
  }

  /** After reading k characters and printing at most x. */
  lemma Paid(s: St, t: St, k: nat, x: int)
    requires Ok(s) && Ok(t) && t.src == s.src && |t.out.buf| == |s.out.buf| && t.cur == s.cur + k
    requires t.out.cur <= s.out.cur + x
    ensures Reserve(t) >= Reserve(s) + Times(k, s) - x
  {
    hide Times;
    Moved(s, t, k);
  }

  lemma OperatorLookup(s: St)
    requires Ok(s)
    ensures var r := RunOperatorTable(s);
            r.Match? ==>
              2 <= Left(s) && r.tree.Text? && |r.tree.w| == 2
              && r.st == OperatorText(Entry(OPERATORS, Both(r.tree.w[0], r.tree.w[1])), s).(cur := s.cur + 2)
  {
    hide Print, OperatorText, SubstitutionText, OPERATORS, Hits;
  }

  lemma OperatorTableAffords(s: St, c: Ctx)
    requires Fit(s, c) && Reserve(s) >= Price(s)
    ensures Affords(OperatorTable, s, c, RunOperatorTable(s))
  {
    hide Times;
    CreditIs(OperatorTable, s);
    hide Credit;
    var r := RunOperatorTable(s);
    if r.Match? {
      OperatorLookup(s);
      var key := Both(r.tree.w[0], r.tree.w[1]);
      var w := Entry(OPERATORS, key);
      EntryShort(OPERATORS, key);
      Free(s, 2);
      TimesIs(0, s);
      hide RunOperatorTable, OPERATORS, Entry, Reserve;
      OperatorTextFits(s, c, w);
      hide Print, Said, OperatorText, SubstitutionText, SaidOperator, SaidSubstitution, TextKept, Shows;
      Paid(s, r.st, 2, 30);
    }
  }

  lemma BuiltinLookup(s: St)
    requires Ok(s)
    ensures var r := RunBuiltinTable(s);
            r.Match? ==>
              1 <= Left(s) && r.tree.Text? && |r.tree.w| == 1
              && r.st == Print(s, Entry(BUILTINS, First(r.tree.w[0]))).(cur := s.cur + 1)
  {
    hide Print, OperatorText, SubstitutionText, BUILTINS, Hits;
  }

  lemma BuiltinTableAffords(s: St, c: Ctx)
    requires Fit(s, c) && Reserve(s) >= Price(s)
    ensures Affords(BuiltinTable, s, c, RunBuiltinTable(s))
  {
    hide Times;
    CreditIs(BuiltinTable, s);
    hide Credit;
    var r := RunBuiltinTable(s);
    if r.Match? {
      BuiltinLookup(s);
      var key := First(r.tree.w[0]);
      var w := Entry(BUILTINS, key);
      EntryShort(BUILTINS, key);
      Free(s, 1);
      TimesIs(0, s);
      hide RunBuiltinTable, BUILTINS, Entry, Reserve;
      PrintFits(s, c, w);
      hide Print, Said, OperatorText, SubstitutionText, SaidOperator, SaidSubstitution, TextKept, Shows;
      Paid(s, r.st, 1, 19);
    }
  }

  lemma SubstitutionLookup(s: St)
    requires Ok(s)
    ensures var r := RunSubstitutionTable(s);
            r.Match? ==>
              1 <= Left(s) && r.tree.Text? && |r.tree.w| == 1
              && r.st == SubstitutionText(Entry(SUBSTITUTIONS, Second(r.tree.w[0])), s).(cur := s.cur + 1)
  {
    hide Print, OperatorText, SubstitutionText, SUBSTITUTIONS, Hits;
  }

  lemma SubstitutionTableAffords(s: St, c: Ctx)
    requires Fit(s, c) && Reserve(s) >= Price(s)
    ensures Affords(SubstitutionTable, s, c, RunSubstitutionTable(s))
  {
    hide Times;
    CreditIs(SubstitutionTable, s);
    hide Credit;
    var r := RunSubstitutionTable(s);
    if r.Match? {
      SubstitutionLookup(s);
      var key := Second(r.tree.w[0]);
      var w := Entry(SUBSTITUTIONS, key);
      EntryShort(SUBSTITUTIONS, key);
      Free(s, 1);
      TimesIs(0, s);
      hide RunSubstitutionTable, SUBSTITUTIONS, Entry, Reserve;
      SubstitutionTextFits(s, c, w);
      hide Print, Said, OperatorText, SubstitutionText, SaidOperator, SaidSubstitution, TextKept, Shows;
      Paid(s, r.st, 1, 26);
    }
  }

  lemma SuffixAffords(s: St, c: Ctx)
    requires Fit(s, c) && Reserve(s) >= Price(s)
    ensures Affords(Suffix, s, c, RunSuffix(s))
  {
    hide Times;
    CreditIs(Suffix, s);
    hide Credit;
    if Starts(s.src, s.cur, "@") {
      var w := s.src[s.cur..];
      Free(s, |w|);
      TimesIs(|w|, s);
      var r := RunSuffix(s);
      assert r == Match(Print(s, w).(cur := |s.src|), Text(w)) && |w| > 0;
      hide Reserve, RunSuffix, Starts;
      PrintFits(s, c, w);
      hide Print, Said, TextKept, Shows;
      Paid(s, r.st, |w|, |w| + 1);
    }
  }

  lemma EmitAffords(w: string, s: St, c: Ctx)
    requires Fit(s, c) && Reserve(s) >= Price(s) && |w| <= 20
    ensures Affords(Emit(w), s, c, RunTerminal(Emit(w), s))
  {
    hide Times;
    CreditIs(Emit(w), s);
    Free(s, 0);
    TimesIs(0, s);
    PrintFits(s, c, w);
    var t := Print(s, w);
    Paid(s, t, 0, |w| + 1);
    hide Credit, Print, Said, TextKept, Shows, Reserve;
  }

  lemma EmitPreviousAffords(s: St, c: Ctx)
    requires Fit(s, c) && Reserve(s) >= Price(s)
    ensures Affords(EmitPrevious, s, c, RunTerminal(EmitPrevious, s))
  {
    hide Times;
    CreditIs(EmitPrevious, s);
    PrintPreviousFits(s, c);
    TimesIs(0, s);
    var t := PrintPrevious(s);
    Paid(s, t, 0, |s.src| + 22);
    hide Credit, PrintPrevious, Said, TextKept, Shows, Reserve;
  }

  /** Symbols that print nothing. */
  lemma SilentAffords(y: Sym, s: St, c: Ctx)
    requires Fit(s, c) && (y.Lit? || y.Class? || y.Numeral? || y.CVQualifiers?)
    ensures Affords(y, s, c, RunTerminal(y, s))
  {
    hide Times;
    CreditIs(y, s);
    hide Credit;
    var r := RunTerminal(y, s);
    if r.Match? {
      var j := r.st.cur - s.cur;
      hide RunNumeral, RunCVQualifiers, Shows;
      Paid(s, r.st, j, 0);
      TimesIs(j, s);
    }
  }

  lemma TerminalAffords(y: Sym, s: St, c: Ctx)
    requires Fit(s, c) && Reserve(s) >= Price(s) && Affordable(y)
    requires !y.N? && !y.Plus? && !y.Opt? && !y.Quiet? && !y.Nested? && !y.Prefix?
    ensures Affords(y, s, c, RunTerminal(y, s))
  {
    hide Affords, Reserve, Shows;
    match y
    case SizedName => SizedNameAffords(s, c);
    case OperatorTable => OperatorTableAffords(s, c);
    case BuiltinTable => BuiltinTableAffords(s, c);
    case SubstitutionTable => SubstitutionTableAffords(s, c);
    case Suffix => SuffixAffords(s, c);
    case Emit(w) => EmitAffords(w, s, c);
    case EmitPrevious => EmitPreviousAffords(s, c);
    case _ => SilentAffords(y, s, c);
  }

  // ---------- the induction over the run ----------

  lemma {:induction false} SymAffords(y: Sym, s: St, c: Ctx)
    requires Fit(s, c) && Reserve(s) >= Price(s) && Affordable(y)
    ensures Affords(y, s, c, RunSym(y, s))
    decreases |s.src| - s.cur, RankSym(y), SizeSym(y), 1
  {
    match y
    case N(n) => NtAffords(n, s, c);
    case Plus(m) => PlusAffords(m, s, c);
    case Opt(z) => OptAffords(z, s, c);
    case Quiet(p) => QuietAffords(p, s, c);
    case Nested(z) => NestedAffords(z, s, c);
    case Prefix => PrefixSymAffords(s, c);
    case _ => TerminalAffords(y, s, c);
  }

  lemma {:induction false} OptAffords(y: Sym, s: St, c: Ctx)
    requires Fit(s, c) && Reserve(s) >= Price(s) && Affordable(Opt(y))
    ensures Affords(Opt(y), s, c, RunOpt(y, s))
    decreases |s.src| - s.cur, RankSym(y), SizeSym(y) + 1, 0
  {
    hide Times, RunSym, Shows, Reserve, Credit;
    SymAffords(y, s, c);
    var r := RunSym(y, s);
    CreditIs(y, s);
    CreditIs(Opt(y), s);
    if r.NoMatch? { RestoreFits(s, r.st, c); }
    if y.Lit? { TimesIs(|y.w|, s); }
  }

  lemma {:induction false} NestedAffords(y: Sym, s: St, c: Ctx)
    requires Fit(s, c) && Reserve(s) >= Price(s) && Affordable(y)
    ensures Affords(Nested(y), s, c, RunSym(Nested(y), s))
    decreases |s.src| - s.cur, RankSym(y), SizeSym(y) + 1, 0
  {
    hide Times, Credit, Reserve, RunSym, Shows, Price;
    CreditIs(Nested(y), s);
    var s0 := s.(nest := 0);
    CreditAtAnyLevel(y, s);
    NestedUnfolds(y, s);
    SymAffords(y, s0, c);
    var r := RunSym(y, s0);
    if r.Match? { ReserveAtAnyLevel(r.st, s.nest); }
  }

  lemma CreditAtAnyLevel(y: Sym, s: St)
    requires Ok(s)
    ensures Reserve(s.(nest := 0)) == Reserve(s) && Credit(y, s.(nest := 0)) == Credit(y, s)
    ensures Price(s.(nest := 0)) == Price(s)
  {
  }

  lemma ReserveAtAnyLevel(s: St, nest: int)
    requires Ok(s)
    ensures Reserve(s.(nest := nest)) == Reserve(s)
  {
  }

  /** With printing off, nothing is printed, and what is read goes to the reserve. */
  lemma QuietAffords(p: Pat, s: St, c: Ctx)
    requires Fit(s, c)
    ensures Affords(Quiet(p), s, c, RunQuiet(p, s))
  {
    hide Times;
    CreditIs(Quiet(p), s);
    hide Credit;
    var r := RunQuiet(p, s);
    if r.Match? {
      var j := r.st.cur - s.cur;
      hide RunQuiet, Shows;
      Paid(s, r.st, j, 0);
      TimesIs(j, s);
    }
  }

  /** A run of p from s kept the text, and a match shows the translation and has b and 4 more in the reserve. */
  predicate AffordsAll(p: Pat, s: St, c: Ctx, r: Res, b: int)
  {
    (!r.Fault? ==> Ok(r.st) && r.st.src == s.src && TextKept(s.out, r.st.out))
    && (r.Match? ==> Fit(r.st, SpellPat(p, r.tree, c)) && s.out.cur <= r.st.out.cur && Reserve(r.st) >= b + 4)
  }

  /** A pattern that is paid for so far from a reserve with b more than it has used. */
  lemma {:induction false} PatAffords(p: Pat, s: St, c: Ctx, b: int, u: int, x: int)
    requires Fit(s, c) && Pays(p, u, x) && b >= Price(s) && Reserve(s) >= b + Times(u, s) + x
    ensures AffordsAll(p, s, c, RunPat(p, s), b)
    decreases |s.src| - s.cur, RankPat(p), SizePat(p), 0
  {
    hide Times, Reserve, Credit, Price, Shows, TextKept, Spell, SpellPat, Extra, Units, RunPat, RunSym, Affordable,
         Pays, OkOut, Affords, AffordsAll;
    if p.Done? {
      DoneAffords(s, c, b, u, x);
    } else {
      HeadPays(p, s, b, u, x);
      PatUnfolds(p, s);
      SymAffords(p.head, s, c);
      var r := RunSym(p.head, s);
      PatStops(p, s, c, r, b);
      if r.Match? {
        TailFits(p.head, s, c, r, b, u, x);
        PatAffords(p.tail, r.st, Spell(p.head, r.tree, c), b, u + Units(p.head), x + Extra(p.head));
        PatJoins(p, s, c, r, RunPat(p.tail, r.st), b);
      }
    }
  }

  lemma DoneAffords(s: St, c: Ctx, b: int, u: int, x: int)
    requires Fit(s, c) && Pays(Done, u, x) && Reserve(s) >= b + Times(u, s) + x
    ensures AffordsAll(Done, s, c, RunPat(Done, s), b)
  {
    hide Reserve, Times, Price, Shows;
    TimesIs(u, s);
  }

  /** A pattern that is paid for so far pays for its head, and then for its tail. */
  lemma HeadPays(p: Pat, s: St, b: int, u: int, x: int)
    requires p.Then? && Ok(s) && Pays(p, u, x) && b >= Price(s) && Reserve(s) >= b + Times(u, s) + x
    ensures Reserve(s) >= Price(s) && Affordable(p.head) && Pays(p.tail, u + Units(p.head), x + Extra(p.head))
  {
    hide Reserve, Times, Price, Affordable, Units, Extra;
    TimesIs(u, s);
  }

  lemma PatStops(p: Pat, s: St, c: Ctx, r: Res, b: int)
    requires Fit(s, c) && p.Then? && Affords(p.head, s, c, r)
    ensures !r.Match? ==> AffordsAll(p, s, c, r, b)
  {
    hide Reserve, Shows, TextKept, SpellPat;
  }

  lemma TailFits(y: Sym, s: St, c: Ctx, r: Res, b: int, u: int, x: int)
    requires Fit(s, c) && r.Match? && Affords(y, s, c, r) && b >= Price(s) && Reserve(s) >= b + Times(u, s) + x
    ensures Fit(r.st, Spell(y, r.tree, c)) && b >= Price(r.st)
    ensures Reserve(r.st) >= b + Times(u + Units(y), r.st) + (x + Extra(y))
  {
    hide Reserve, Credit, Times, Shows, TextKept, Spell;
    CreditAdds(y, s, u, x);
    TimesSame(u + Units(y), s, r.st);
  }

  lemma UnitSame(s: St, t: St)
    requires s.src == t.src
    ensures Price(s) == Price(t)
  {
  }

  lemma CreditAdds(y: Sym, s: St, u: int, x: int)
    ensures Times(u + Units(y), s) + (x + Extra(y)) == Times(u, s) + x + Credit(y, s)
  {
    hide Times, Units, Extra;
    TimesAdd(u, Units(y), s);
  }

  lemma PatJoins(p: Pat, s: St, c: Ctx, r: Res, q: Res, b: int)
    requires Fit(s, c) && p.Then? && r.Match? && Affords(p.head, s, c, r)
    requires AffordsAll(p.tail, r.st, Spell(p.head, r.tree, c), q, b)
    ensures AffordsAll(p, s, c, Joined(r.tree, q), b)
  {
    hide Shows, Reserve;
    if !q.Fault? { TextKeptTrans(s.out, r.st.out, q.st.out); }
  }

  lemma {:induction false} NtAffords(n: Nonterminal, s: St, c: Ctx)
    requires Fit(s, c) && Reserve(s) >= Price(s)
    ensures Affords(N(n), s, c, RunNt(n, s))
    ensures RunNt(n, s).Match? ==> RunNt(n, s).tree.Node? && RunNt(n, s).tree.n == n
    decreases |s.src| - s.cur, Level(n), 1, 0
  {
    hide Rule, RunAlts, RunPat, RunNt, Times, Reserve, Price, Shows, TextKept, SpellPat;
    NtUnfolds(n, s);
    RulePays(n);
    AltsAfford(n, Rule(n), s, c);
    CreditIs(N(n), s);
    hide Credit;
    var r := RunAlts(n, Rule(n), s);
    if r.NoMatch? { RestoreKeeps(s, r.st); }
  }

  lemma RestoreKeeps(s: St, t: St)
    requires Ok(s) && Ok(t) && TextKept(s.out, t.out)
    ensures Ok(Restore(s, t)) && TextKept(s.out, Restore(s, t).out)
  {
  }

  /** A run of alternatives of n from s kept the text, and a match shows the translation and has 4 more in the
      reserve. */
  predicate AltsAffords(n: Nonterminal, s: St, c: Ctx, r: Res)
    requires Ok(s)
  {
    (!r.Fault? ==> Ok(r.st) && r.st.src == s.src && TextKept(s.out, r.st.out))
    && (r.Match? ==> r.tree.Node? && r.tree.n == n && Fit(r.st, SpellPat(r.tree.p, r.tree.body, c))
                     && s.out.cur <= r.st.out.cur && Reserve(r.st) >= Reserve(s) + 4)
  }

  /** Alternatives that all pay. */
  lemma {:induction false} AltsAfford(n: Nonterminal, alts: Alts, s: St, c: Ctx)
    requires Fit(s, c) && Reserve(s) >= Price(s) && AllPay(alts) && Descends(alts, Level(n))
    ensures AltsAffords(n, s, c, RunAlts(n, alts, s))
    decreases |s.src| - s.cur, Level(n), 0, alts
  {
    hide RunAlts, RunPat, Times, Reserve, Price, Shows, TextKept, SpellPat, AltsAffords, AffordsAll, Pays, OkOut;
    if alts.Fail? {
      FailAffords(n, s, c);
    } else {
      AltsUnfold(n, alts, s);
      FirstAffords(alts.first, s, c);
      var r := RunPat(alts.first, s);
      FirstStops(n, alts.first, s, c, r);
      if r.NoMatch? && alts.rest.Or? {
        var back := Restore(s, r.st);
        BackFits(s, r.st, c);
        AltsAfford(n, alts.rest, back, c);
        NextAffords(n, s, back, c, RunAlts(n, alts.rest, back));
      }
    }
  }

  lemma FailAffords(n: Nonterminal, s: St, c: Ctx)
    requires Fit(s, c)
    ensures AltsAffords(n, s, c, RunAlts(n, Fail, s))
  {
    hide Reserve, Shows;
  }

  lemma {:induction false} FirstAffords(p: Pat, s: St, c: Ctx)
    requires Fit(s, c) && Reserve(s) >= Price(s) && Pays(p, 0, 0)
    ensures AffordsAll(p, s, c, RunPat(p, s), Reserve(s))
    decreases |s.src| - s.cur, RankPat(p), SizePat(p), 1
  {
    hide RunPat, Reserve, Price, Shows, TextKept, SpellPat, Pays, Times;
    TimesIs(0, s);
    PatAffords(p, s, c, Reserve(s), 0, 0);
  }

  lemma FirstStops(n: Nonterminal, p: Pat, s: St, c: Ctx, r: Res)
    requires Fit(s, c) && AffordsAll(p, s, c, r, Reserve(s))
    ensures AltsAffords(n, s, c, if r.Match? then Match(r.st, Node(n, p, r.tree)) else r)
    ensures r.NoMatch? ==> Ok(r.st) && TextKept(s.out, r.st.out)
  {
    hide Reserve, Shows, TextKept, SpellPat;
  }

  /** Going back to the start after an alternative that failed. */
  lemma BackFits(s: St, t: St, c: Ctx)
    requires Fit(s, c) && Reserve(s) >= Price(s) && Ok(t) && TextKept(s.out, t.out)
    ensures var back := Restore(s, t);
            Fit(back, c) && Reserve(back) >= Price(back) && Reserve(back) == Reserve(s) && TextKept(s.out, back.out)
            && back.out.cur == s.out.cur
  {
    hide Reserve, Price, Shows, Times;
    RestoreFits(s, t, c);
    UnitSame(s, Restore(s, t));
  }

  lemma NextAffords(n: Nonterminal, s: St, back: St, c: Ctx, q: Res)
    requires Ok(s) && Ok(back) && back.src == s.src && back.out.cur == s.out.cur && TextKept(s.out, back.out)
    requires Reserve(back) == Reserve(s) && AltsAffords(n, back, c, q)
    ensures AltsAffords(n, s, c, q)
  {
    hide Reserve, Shows, SpellPat;
    if !q.Fault? { TextKeptTrans(s.out, back.out, q.st.out); }
  }

  lemma {:induction false} PlusAffords(n: Nonterminal, s: St, c: Ctx)
    requires Fit(s, c) && Reserve(s) >= Price(s)
    ensures Affords(Plus(n), s, c, RunPlus(n, s))
    decreases |s.src| - s.cur, Level(n), 3, 0
  {
    hide RunPlus, RunNt, RunStar, RunSym, Times, Reserve, Price, Shows, TextKept, Credit, OkOut;
    PlusUnfolds(n, s);
    CreditIs(Plus(n), s);
    CreditIs(N(n), s);
    NtAffords(n, s, c);
    var r := RunNt(n, s);
    if r.Match? {
      UnitSame(s, r.st);
      StarAffords(n, r.st, Spell(N(n), r.tree, c));
      var q := RunStar(n, r.st);
      if !q.Fault? { TextKeptTrans(s.out, r.st.out, q.st.out); }
    }
  }

  lemma {:induction false} StarAffords(n: Nonterminal, s: St, c: Ctx)
    requires Fit(s, c) && Reserve(s) >= Price(s)
    ensures var r := RunStar(n, s);
            (!r.Fault? ==> Ok(r.st) && r.st.src == s.src && TextKept(s.out, r.st.out))
            && (r.Match? ==> Fit(r.st, SpellStar(n, r.tree, c)) && s.out.cur <= r.st.out.cur
                             && Reserve(r.st) >= Reserve(s))
    decreases |s.src| - s.cur, Level(n), 2, 0
  {
    hide RunNt, RunStar, Times, Reserve, Price, Shows, TextKept, Spell, Credit, OkOut;
    var r := RunNt(n, s);
    StarUnfolds(n, s);
    NtAffords(n, s, c);
    CreditIs(N(n), s);
    match r
    case Match(t, tree) =>
      UnitSame(s, t);
      StarAffords(n, t, Spell(N(n), tree, c));
      var q := RunStar(n, t);
      if !q.Fault? { TextKeptTrans(s.out, t.out, q.st.out); }
    case NoMatch(t) => BackFits(s, t, c);
    case Fault =>
  }

  // ---------- the prefix ----------

  /** What a run of the prefix from s keeps and shows; the first item is the one at nest level 0. */
  predicate PrefixAffords(s: St, c: Ctx, r: Res)
    requires Ok(s)
  {
    (!r.Fault? ==> Ok(r.st) && r.st.src == s.src && TextKept(s.out, r.st.out))
    && (r.Match? ==> Fit(r.st, SpellPrefix(s.nest == 0, r.tree, c)) && s.out.cur <= r.st.out.cur
                     && Reserve(r.st) >= Reserve(s))
  }

  /** The separator takes 2 from the reserve, and nothing at nest level 0. */
  lemma SeparateFits(s: St, c: Ctx)
    requires Fit(s, c) && s.nest >= 0 && Reserve(s) >= Price(s) + (if s.nest == 0 then 0 else 3)
    ensures var t := Separate(s);
            Fit(t, if s.nest == 0 then c else Said(c, "::")) && TextKept(s.out, t.out) && s.out.cur <= t.out.cur
            && Reserve(t) >= Price(t) && Reserve(t) + 3 >= Reserve(s) && t == s.(out := t.out)
            && t.out.cur == s.out.cur + (if s.nest == 0 then 0 else 2)
            && t.out.prevName == s.out.prevName && t.out.prevLen == s.out.prevLen && !t.out.overflowed
  {
    TimesIs(0, s);
    Free(s, 0);
    if s.nest >= 1 {
      PrintFits(s, c, "::");
      Paid(s, Separate(s), 0, 3);
      assert |Separate(s).out.buf[..Separate(s).out.cur]| == |c.text| + 2;
    }
  }

  /** Taking the separator back leaves the text and the reserve as they were. */
  lemma CancelFits(s: St, t: St, c: Ctx)
    requires Fit(s, c) && s.nest >= 0 && Ok(t) && t == Restore(Separate(s), t)
    requires TextKept(s.out, t.out) && t.out.cur == s.out.cur + (if s.nest == 0 then 0 else 2)
    requires Separate(s) == s.(out := Separate(s).out) && !Separate(s).out.overflowed
    requires Separate(s).out.prevName == s.out.prevName && Separate(s).out.prevLen == s.out.prevLen
    ensures var u := CancelSeparator(t);
            Fit(u, c) && TextKept(s.out, u.out) && u.out.cur == s.out.cur && Reserve(u) == Reserve(s)
            && u.src == s.src && u.cur == s.cur && u.nest == s.nest
  {
    var u := CancelSeparator(t);
    assert u.out.buf[..s.out.cur] == t.out.buf[..s.out.cur];
    if s.out.prevLen > 0 {
      NameKept(s.out, u.out, s.out.prevName, s.out.prevLen);
    }
  }

  lemma DeeperFits(s: St, c: Ctx)
    requires Fit(s, c) && s.nest >= 0
    ensures var t := Deeper(s);
            Fit(t, c) && Reserve(t) == Reserve(s) && Price(t) == Price(s) && t.nest >= 1 && t.out == s.out
            && t.src == s.src
  {
  }

  lemma {:induction false} PrefixRunAffords(has: bool, s: St, c: Ctx)
    requires Fit(s, c) && s.nest >= 0 && (has ==> s.nest >= 1)
    requires Reserve(s) >= Price(s) + (if s.nest == 0 then 0 else 3)
    ensures PrefixAffords(s, c, RunPrefix(has, s))
    decreases |s.src| - s.cur, RankSym(Prefix), 2, 0
  {
    hide Separate, CancelSeparator, RunPrefix, RunNt, Times, Reserve, Price, Shows, TextKept, Spell, Restore, Said,
         Credit, OkOut;
    PrefixUnfolds(has, s);
    SeparateFits(s, c);
    var s0 := Separate(s);
    var c0 := if s.nest == 0 then c else Said(c, "::");
    NtAffords(PrefixItem, s0, c0);
    CreditIs(N(PrefixItem), s0);
    var r := RunNt(PrefixItem, s0);
    if r.Match? {
      var t := Deeper(r.st);
      var c1 := Spell(N(PrefixItem), r.tree, c0);
      DeeperFits(r.st, c1);
      UnitSame(s, t);
      UnitSame(s, s0);
      PrefixRunAffords(true, t, c1);
      TextKeptTrans(s.out, s0.out, r.st.out);
      PrefixItemJoins(s, c, r, RunPrefix(true, t));
    } else if r.NoMatch? {
      TextKeptTrans(s.out, s0.out, r.st.out);
      RestoredCur(s0, r.st);
      CancelFits(s, r.st, c);
      var u := CancelSeparator(r.st);
      if has {
        UnitSame(s, u);
        PrefixArgsAffords(u, c);
        CancelJoins(s, u, c, RunPrefixArgs(u));
      }
    }
  }

  lemma CancelJoins(s: St, u: St, c: Ctx, q: Res)
    requires Ok(s) && Ok(u) && u.src == s.src && u.nest == s.nest && u.out.cur == s.out.cur && TextKept(s.out, u.out)
    requires Reserve(u) == Reserve(s) && PrefixAffords(u, c, q)
    ensures PrefixAffords(s, c, q)
  {
    hide Reserve, Shows;
    if !q.Fault? { TextKeptTrans(s.out, u.out, q.st.out); }
  }

  lemma RestoredCur(s: St, t: St)
    requires t == Restore(s, t)
    ensures t.out.cur == s.out.cur
  {
  }

  lemma PrefixItemJoins(s: St, c: Ctx, r: Res, q: Res)
    requires Fit(s, c) && s.nest >= 0 && r.Match? && r.tree.Node? && r.tree.n == PrefixItem && r.st.nest == s.nest
    requires var c0 := if s.nest == 0 then c else Said(c, "::");
             Fit(r.st, Spell(N(PrefixItem), r.tree, c0)) &&
             PrefixAffords(Deeper(r.st), Spell(N(PrefixItem), r.tree, c0), q)
    requires r.st.src == s.src && TextKept(s.out, r.st.out) && s.out.cur <= r.st.out.cur && Reserve(r.st) >= Reserve(s)
    ensures PrefixAffords(s, c, Joined(r.tree, q))
  {
    DeeperFits(r.st, Spell(N(PrefixItem), r.tree, if s.nest == 0 then c else Said(c, "::")));
    hide Reserve, Shows, Spell, Said;
    if !q.Fault? { TextKeptTrans(s.out, r.st.out, q.st.out); }
  }

  lemma {:induction false} PrefixArgsAffords(s: St, c: Ctx)
    requires Fit(s, c) && s.nest >= 1 && Reserve(s) >= Price(s) + 3
    ensures PrefixAffords(s, c, RunPrefixArgs(s))
    decreases |s.src| - s.cur, RankSym(Prefix), 1, 0
  {
    hide RunPrefix, RunPrefixArgs, RunNt, Times, Reserve, Price, Shows, TextKept, Spell, Credit, OkOut;
    var r := RunNt(TemplateArgs, s);
    PrefixArgsUnfold(s);
    NtAffords(TemplateArgs, s, c);
    CreditIs(N(TemplateArgs), s);
    if r.Match? {
      UnitSame(s, r.st);
      PrefixRunAffords(false, r.st, Spell(N(TemplateArgs), r.tree, c));
      var q := RunPrefix(false, r.st);
      if !q.Fault? { TextKeptTrans(s.out, r.st.out, q.st.out); }
    } else if r.NoMatch? {
      RestoreFits(s, r.st, c);
      RestoredCur(s, r.st);
    }
  }

  lemma {:induction false} PrefixSymAffords(s: St, c: Ctx)
    requires Fit(s, c) && Reserve(s) >= Price(s)
    ensures Affords(Prefix, s, c, RunSym(Prefix, s))
    decreases |s.src| - s.cur, RankSym(Prefix), 3, 0
  {
    var s0 := s.(nest := 0);
    var r := RunPrefix(false, s0);
    assert RunSym(Prefix, s) == LevelBack(s, r);
    CreditIs(Prefix, s);
    CreditAtAnyLevel(Prefix, s);
    hide RunSym, RunPrefix, Reserve, Price, Credit, Shows;
    PrefixRunAffords(false, s0, c);
    if r.Match? { ReserveAtAnyLevel(r.st, s.nest); }
  }

  // ---------- the whole name ----------

  /** For a source of n characters a buffer of (n + 1)(n + 24) never overflows. What it then holds up to the
      output cursor is the translation of the derivation that was found. */
  lemma DemangledText(src: string, buf: seq<char>)
    requires |buf| >= (|src| + 1) * (|src| + 24)
    ensures |buf| > 0
    ensures var r := RunNt(MangledName, Initial(src, buf));
            r.Match? ==> !r.st.out.overflowed
                         && r.st.out.buf[..r.st.out.cur] == Spell(N(MangledName), r.tree, Ctx("", "")).text
  {
    assert (|src| + 1) * (|src| + 24) == |src| * (|src| + 24) + (|src| + 24);
    assert |src| * (|src| + 24) >= 0;
    var s := Initial(src, buf);
    assert Shows(s.out, Ctx("", ""));
    assert Reserve(s) >= Price(s);
    NtAffords(MangledName, s, Ctx("", ""));
  }
}
