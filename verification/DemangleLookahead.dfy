/** One character of lookahead: what cannot begin with the next character fails and writes nothing. */
module DemangleLookahead {
  import opened DemangleGrammar
  import opened DemangleSpec

  /** The next character; NUL at the end, where a C string has one. */
  function Peek(s: St): char
    requires Ok(s)
  {
    if s.cur < |s.src| then s.src[s.cur] else '\0'
  }

  predicate IsDigit(ch: char) { '0' <= ch <= '9' }

  predicate BeginsUnqualified(ch: char) { IsLower(ch) || IsDigit(ch) || ch == 'C' || ch == 'D' || ch == 'L' }

  predicate BeginsName(ch: char) { BeginsUnqualified(ch) || ch == 'S' || ch == 'N' || ch == 'Z' }

  predicate BeginsType(ch: char) {
    BeginsName(ch) || ch == 'V' || ch == 'K' || ch == 'P' || ch == 'R' || ch == 'G' || ch == 'U' || ch == 'F'
    || ch == 'A' || ch == 'M' || ch == 'T'
  }

  /** The characters with which a nonterminal can begin. */
  predicate Begins(n: Nonterminal, ch: char) {
    match n
    case MangledName => ch == '_'
    case Encoding => BeginsName(ch) || ch == 'T' || ch == 'G'
    case Name => BeginsName(ch)
    case UnscopedName => BeginsUnqualified(ch) || ch == 'S'
    case UnscopedTemplateName => BeginsUnqualified(ch) || ch == 'S'
    case NestedName => ch == 'N'
    case PrefixItem => BeginsUnqualified(ch) || ch == 'S' || ch == 'T'
    case UnqualifiedName => BeginsUnqualified(ch)
    case SourceName => IsDigit(ch) || ch == 'n'
    case LocalSourceName => ch == 'L'
    case OperatorName => IsLower(ch)
    case SpecialName => ch == 'T' || ch == 'G'
    case CallOffset => ch == 'h' || ch == 'v'
    case NVOffset => IsDigit(ch) || ch == 'n'
    case VOffset => IsDigit(ch) || ch == 'n'
    case CtorDtorName => ch == 'C' || ch == 'D'
    case Type => BeginsType(ch)
    case BuiltinType => IsLower(ch)
    case FunctionType => ch == 'F'
    case BareFunctionType => BeginsType(ch)
    case ClassEnumType => BeginsName(ch)
    case ArrayType => ch == 'A'
    case PointerToMemberType => ch == 'M'
    case TemplateParam => ch == 'T'
    case TemplateTemplateParam => ch == 'T' || ch == 'S'
    case TemplateArgs => ch == 'I'
    case TemplateArg => BeginsType(ch) || ch == 'X'
    case Expression => ch == 'T' || ch == 'L' || IsLower(ch)
    case ExprPrimary => ch == 'L'
    case LocalName => ch == 'Z'
    case Discriminator => ch == '_'
    case Substitution => ch == 'S'
  }

  /** The characters with which a symbol can begin; true for what reads nothing. */
  predicate BeginsSym(y: Sym, ch: char)
    decreases y
  {
    match y
    case N(n) => Begins(n, ch)
    case Lit(w) => w == "" || w[0] == ch
    case Class(cs) => ch in cs
    case Numeral(radix) => Digit(radix, ch) >= 0 || (radix == Decimal && ch == 'n')
    case SizedName => IsDigit(ch) || ch == 'n'
    case CVQualifiers => ch == 'r' || ch == 'V' || ch == 'K'
    case OperatorTable => IsLower(ch)
    case BuiltinTable => IsLower(ch)
    case Plus(m) => Begins(m, ch)
    case Quiet(p) => BeginsPat(p, ch)
    case Nested(z) => BeginsSym(z, ch)
    case _ => true
  }

  predicate BeginsPat(p: Pat, ch: char)
    decreases p
  {
    p.Done? || BeginsSym(p.head, ch)
  }

  predicate BeginsAlts(alts: Alts, ch: char)
    decreases alts
  {
    alts.Or? && (BeginsPat(alts.first, ch) || BeginsAlts(alts.rest, ch))
  }

  /** The table has all characters with which an alternative can begin. */
  lemma TableIsComplete(n: Nonterminal, ch: char)
    ensures BeginsAlts(Rule(n), ch) ==> Begins(n, ch)
  {
    hide BeginsAlts, Rule, Begins;
    EncodingsBegin(ch);
    NamesBegin(ch);
    TemplateNamesBegin(ch);
    PrefixItemBegins(ch);
    UnqualifiedNameBegins(ch);
    SourceNamesBegin(ch);
    LocalNameBegins(ch);
    OperatorNameBegins(ch);
    SpecialNameBegins(ch);
    CtorDtorNameBegins(ch);
    OffsetsBegin(ch);
    NumbersBegin(ch);
    TypeBegins(ch);
    SmallTypesBegin(ch);
    BareFunctionTypeBegins(ch);
    ClassEnumTypeBegins(ch);
    ArrayTypesBegin(ch);
    TemplateParamBegins(ch);
    TemplateTemplateParamBegins(ch);
    TemplateArgsBegin(ch);
    TemplateArgBegins(ch);
    ExpressionBegins(ch);
    ExprPrimaryBegins(ch);
    SubstitutionBegins(ch);
  }

  /** One step along the alternatives. */
  lemma BeginsUnfolds(ch: char)
    ensures forall p, rest {:trigger BeginsAlts(Or(p, rest), ch)} ::
              BeginsAlts(Or(p, rest), ch) <==> BeginsPat(p, ch) || BeginsAlts(rest, ch)
    ensures forall y, p {:trigger BeginsPat(Then(y, p), ch)} :: BeginsPat(Then(y, p), ch) <==> BeginsSym(y, ch)
    ensures !BeginsAlts(Fail, ch)
    ensures forall n {:trigger BeginsSym(N(n), ch)} :: BeginsSym(N(n), ch) <==> Begins(n, ch)
    ensures forall n {:trigger BeginsSym(Plus(n), ch)} :: BeginsSym(Plus(n), ch) <==> Begins(n, ch)
    ensures forall w {:trigger BeginsSym(Lit(w), ch)} :: BeginsSym(Lit(w), ch) <==> w == "" || w[0] == ch
    ensures forall cs {:trigger BeginsSym(Class(cs), ch)} :: BeginsSym(Class(cs), ch) <==> ch in cs
    ensures forall p {:trigger BeginsSym(Quiet(p), ch)} :: BeginsSym(Quiet(p), ch) <==> BeginsPat(p, ch)
    ensures BeginsSym(NUMBER, ch) <==> IsDigit(ch) || ch == 'n'
    ensures BeginsSym(SizedName, ch) <==> IsDigit(ch) || ch == 'n'
    ensures BeginsSym(CVQualifiers, ch) <==> ch == 'r' || ch == 'V' || ch == 'K'
    ensures (BeginsSym(OperatorTable, ch) <==> IsLower(ch)) && (BeginsSym(BuiltinTable, ch) <==> IsLower(ch))
  {
  }

  lemma EncodingsBegin(ch: char)
    ensures BeginsAlts(Rule(MangledName), ch) ==> Begins(MangledName, ch)
    ensures BeginsAlts(Rule(Encoding), ch) ==> Begins(Encoding, ch)
  {
    hide BeginsAlts, BeginsPat, BeginsSym;
    BeginsUnfolds(ch);
  }

  lemma NamesBegin(ch: char)
    ensures BeginsAlts(Rule(Name), ch) ==> Begins(Name, ch)
    ensures BeginsAlts(Rule(UnscopedName), ch) ==> Begins(UnscopedName, ch)
  {
    hide BeginsAlts, BeginsPat, BeginsSym;
    BeginsUnfolds(ch);
  }

  lemma TemplateNamesBegin(ch: char)
    ensures BeginsAlts(Rule(UnscopedTemplateName), ch) ==> Begins(UnscopedTemplateName, ch)
    ensures BeginsAlts(Rule(NestedName), ch) ==> Begins(NestedName, ch)
  {
    hide BeginsAlts, BeginsPat, BeginsSym;
    BeginsUnfolds(ch);
  }

  lemma PrefixItemBegins(ch: char)
    ensures BeginsAlts(Rule(PrefixItem), ch) ==> Begins(PrefixItem, ch)
  {
    hide BeginsAlts, BeginsPat, BeginsSym;
    BeginsUnfolds(ch);
  }

  lemma UnqualifiedNameBegins(ch: char)
    ensures BeginsAlts(Rule(UnqualifiedName), ch) ==> Begins(UnqualifiedName, ch)
  {
    hide BeginsAlts, BeginsPat, BeginsSym;
    BeginsUnfolds(ch);
  }

  lemma SourceNamesBegin(ch: char)
    ensures BeginsAlts(Rule(SourceName), ch) ==> Begins(SourceName, ch)
    ensures BeginsAlts(Rule(LocalSourceName), ch) ==> Begins(LocalSourceName, ch)
  {
    hide BeginsAlts, BeginsPat, BeginsSym;
    BeginsUnfolds(ch);
  }

  lemma LocalNameBegins(ch: char)
    ensures BeginsAlts(Rule(LocalName), ch) ==> Begins(LocalName, ch)
  {
    hide BeginsAlts, BeginsPat, BeginsSym;
    BeginsUnfolds(ch);
  }

  lemma OperatorNameBegins(ch: char)
    ensures BeginsAlts(Rule(OperatorName), ch) ==> Begins(OperatorName, ch)
  {
    hide BeginsAlts, BeginsPat, BeginsSym;
    BeginsUnfolds(ch);
  }

  lemma SpecialNameBegins(ch: char)
    ensures BeginsAlts(Rule(SpecialName), ch) ==> Begins(SpecialName, ch)
  {
    hide BeginsAlts, BeginsPat, BeginsSym;
    BeginsUnfolds(ch);
  }

  lemma CtorDtorNameBegins(ch: char)
    ensures BeginsAlts(Rule(CtorDtorName), ch) ==> Begins(CtorDtorName, ch)
  {
    hide BeginsAlts, BeginsPat, BeginsSym;
    BeginsUnfolds(ch);
  }

  lemma OffsetsBegin(ch: char)
    ensures BeginsAlts(Rule(CallOffset), ch) ==> Begins(CallOffset, ch)
    ensures BeginsAlts(Rule(NVOffset), ch) ==> Begins(NVOffset, ch)
  {
    hide BeginsAlts, BeginsPat, BeginsSym;
    BeginsUnfolds(ch);
  }

  lemma NumbersBegin(ch: char)
    ensures BeginsAlts(Rule(VOffset), ch) ==> Begins(VOffset, ch)
    ensures BeginsAlts(Rule(Discriminator), ch) ==> Begins(Discriminator, ch)
  {
    hide BeginsAlts, BeginsPat, BeginsSym;
    BeginsUnfolds(ch);
  }

  lemma SimpleTypesBegin(ch: char)
    ensures BeginsAlts(SimpleTypes(), ch) ==> BeginsType(ch)
  {
    hide BeginsAlts, BeginsPat, BeginsSym;
    BeginsUnfolds(ch);
  }

  lemma TypeBegins(ch: char)
    ensures BeginsAlts(Rule(Type), ch) ==> Begins(Type, ch)
  {
    hide BeginsAlts, BeginsPat, BeginsSym, SimpleTypes;
    BeginsUnfolds(ch);
    SimpleTypesBegin(ch);
  }

  lemma SmallTypesBegin(ch: char)
    ensures BeginsAlts(Rule(BuiltinType), ch) ==> Begins(BuiltinType, ch)
    ensures BeginsAlts(Rule(FunctionType), ch) ==> Begins(FunctionType, ch)
  {
    hide BeginsAlts, BeginsPat, BeginsSym;
    BeginsUnfolds(ch);
  }

  lemma BareFunctionTypeBegins(ch: char)
    ensures BeginsAlts(Rule(BareFunctionType), ch) ==> Begins(BareFunctionType, ch)
  {
    hide BeginsAlts, BeginsPat, BeginsSym;
    BeginsUnfolds(ch);
  }

  lemma ClassEnumTypeBegins(ch: char)
    ensures BeginsAlts(Rule(ClassEnumType), ch) ==> Begins(ClassEnumType, ch)
  {
    hide BeginsAlts, BeginsPat, BeginsSym;
    BeginsUnfolds(ch);
  }

  lemma ArrayTypesBegin(ch: char)
    ensures BeginsAlts(Rule(ArrayType), ch) ==> Begins(ArrayType, ch)
    ensures BeginsAlts(Rule(PointerToMemberType), ch) ==> Begins(PointerToMemberType, ch)
  {
    hide BeginsAlts, BeginsPat, BeginsSym;
    BeginsUnfolds(ch);
  }

  lemma TemplateParamBegins(ch: char)
    ensures BeginsAlts(Rule(TemplateParam), ch) ==> Begins(TemplateParam, ch)
  {
    hide BeginsAlts, BeginsPat, BeginsSym;
    BeginsUnfolds(ch);
  }

  lemma TemplateTemplateParamBegins(ch: char)
    ensures BeginsAlts(Rule(TemplateTemplateParam), ch) ==> Begins(TemplateTemplateParam, ch)
  {
    hide BeginsAlts, BeginsPat, BeginsSym;
    BeginsUnfolds(ch);
  }

  lemma TemplateArgsBegin(ch: char)
    ensures BeginsAlts(Rule(TemplateArgs), ch) ==> Begins(TemplateArgs, ch)
  {
    hide BeginsAlts, BeginsPat, BeginsSym;
    BeginsUnfolds(ch);
  }

  lemma TemplateArgBegins(ch: char)
    ensures BeginsAlts(Rule(TemplateArg), ch) ==> Begins(TemplateArg, ch)
  {
    hide BeginsAlts, BeginsPat, BeginsSym;
    BeginsUnfolds(ch);
  }

  lemma MoreExpressionsBegin(ch: char)
    ensures BeginsAlts(MoreExpressions(), ch) ==> IsLower(ch)
  {
    hide BeginsAlts, BeginsPat, BeginsSym;
    BeginsUnfolds(ch);
  }

  lemma ExpressionBegins(ch: char)
    ensures BeginsAlts(Rule(Expression), ch) ==> Begins(Expression, ch)
  {
    hide BeginsAlts, BeginsPat, BeginsSym, MoreExpressions;
    BeginsUnfolds(ch);
    MoreExpressionsBegin(ch);
  }

  lemma ExprPrimaryBegins(ch: char)
    ensures BeginsAlts(Rule(ExprPrimary), ch) ==> Begins(ExprPrimary, ch)
  {
    hide BeginsAlts, BeginsPat, BeginsSym;
    BeginsUnfolds(ch);
  }

  lemma SubstitutionBegins(ch: char)
    ensures BeginsAlts(Rule(Substitution), ch) ==> Begins(Substitution, ch)
  {
    hide BeginsAlts, BeginsPat, BeginsSym;
    BeginsUnfolds(ch);
  }

  lemma BuiltinsBegin(k: nat, ch: char)
    requires k <= |BUILTINS| && !IsLower(ch)
    ensures Find(BUILTINS, k, First(ch)) == |BUILTINS|
    decreases |BUILTINS| - k
  {
    assert forall i :: 0 <= i < |BUILTINS| ==> IsLower(BUILTINS[i].a);
    hide BUILTINS;
    if k < |BUILTINS| { BuiltinsBegin(k + 1, ch); }
  }

  // ---------- the runs ----------

  /** The run fails where it began and has written nothing. */
  predicate Nothing(s: St, r: Res) { r.NoMatch? && r.st.cur == s.cur && r.st.src == s.src && r.st.out == s.out }

  lemma TerminalFails(y: Sym, s: St)
    requires Ok(s) && !BeginsSym(y, Peek(s))
    requires !y.N? && !y.Plus? && !y.Opt? && !y.Quiet? && !y.Nested? && !y.Prefix?
    ensures Nothing(s, RunTerminal(y, s))
  {
    hide RunNumeral, RunCVQualifiers, RunOperatorTable, RunBuiltinTable, RunSubstitutionTable, RunIdentifier;
    match y
    case Numeral(radix) => NumeralFails(radix, s);
    case SizedName => NumeralFails(Decimal, s);
    case CVQualifiers => QualifiersFail(s);
    case OperatorTable => TablesFail(s);
    case BuiltinTable => TablesFail(s);
    case _ =>
  }

  lemma NumeralFails(radix: Radix, s: St)
    requires Ok(s) && !BeginsSym(Numeral(radix), Peek(s))
    ensures Nothing(s, RunNumeral(radix, s))
  {
    assert s.cur < |s.src| ==> s.src[s.cur..s.cur + 1] == [s.src[s.cur]];
  }

  lemma QualifiersFail(s: St)
    requires Ok(s) && !BeginsSym(CVQualifiers, Peek(s))
    ensures Nothing(s, RunCVQualifiers(s))
  {
    assert s.cur < |s.src| ==> s.src[s.cur..s.cur + 1] == [s.src[s.cur]];
  }

  lemma TablesFail(s: St)
    requires Ok(s) && !IsLower(Peek(s))
    ensures Nothing(s, RunOperatorTable(s)) && Nothing(s, RunBuiltinTable(s))
  {
    hide BUILTINS, OPERATORS, Find, Print, OperatorText;
    BuiltinsBegin(0, Peek(s));
  }

  lemma {:induction false} SymFails(y: Sym, s: St)
    requires Ok(s) && !BeginsSym(y, Peek(s))
    ensures Nothing(s, RunSym(y, s))
    decreases RankSym(y), SizeSym(y), 1
  {
    match y
    case N(n) => NtFails(n, s);
    case Plus(m) => NtFails(m, s);
    case Quiet(p) => PatFails(p, s.(append := false));
    case Nested(z) => SymFails(z, s.(nest := 0));
    case _ => TerminalFails(y, s);
  }

  lemma {:induction false} PatFails(p: Pat, s: St)
    requires Ok(s) && !BeginsPat(p, Peek(s))
    ensures Nothing(s, RunPat(p, s))
    decreases RankPat(p), SizePat(p), 0
  {
    hide RunPat, RunSym, BeginsSym;
    PatUnfolds(p, s);
    SymFails(p.head, s);
  }

  lemma {:induction false} AltsFail(n: Nonterminal, alts: Alts, s: St)
    requires Ok(s) && !BeginsAlts(alts, Peek(s)) && Descends(alts, Level(n))
    ensures Nothing(s, RunAlts(n, alts, s))
    decreases Level(n), 0, alts
  {
    if alts.Or? {
      AltsUnfold(n, alts, s);
      hide RunAlts, RunPat, BeginsPat;
      PatFails(alts.first, s);
      var back := Restore(s, RunPat(alts.first, s).st);
      assert back == s;
      AltsFail(n, alts.rest, s);
    }
  }

  /** A nonterminal that cannot begin with the next character fails, and the state and all of the buffer are as they
      were. */
  lemma {:induction false} NtFails(n: Nonterminal, s: St)
    requires Ok(s) && !Begins(n, Peek(s))
    ensures Nothing(s, RunNt(n, s)) && (Restores(n) ==> RunNt(n, s).st == s)
    decreases Level(n), 1, 0
  {
    hide Begins, RunAlts, RunNt, Rule, Descends;
    NtUnfolds(n, s);
    TableIsComplete(n, Peek(s));
    AltsFail(n, Rule(n), s);
  }
}
