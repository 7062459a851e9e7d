/** The grammar of section 5.1 of the Itanium C++ ABI as the demangler reads it: the BNF of its comments,
    written as data, with the text each production prints placed where it is printed. */
module DemangleGrammar {

  datatype Nonterminal =
    | MangledName | Encoding | Name | UnscopedName | UnscopedTemplateName | NestedName | PrefixItem
    | UnqualifiedName | SourceName | LocalSourceName | OperatorName | SpecialName | CallOffset | NVOffset
    | VOffset | CtorDtorName | Type | BuiltinType | FunctionType | BareFunctionType | ClassEnumType
    | ArrayType | PointerToMemberType | TemplateParam | TemplateTemplateParam | TemplateArgs | TemplateArg
    | Expression | ExprPrimary | LocalName | Discriminator | Substitution

  /** The three kinds of digit strings: [n] decimal, lower-case hexadecimal, upper-case base 36. */
  datatype Radix = Decimal | Hexadecimal | Base36

  /** One step of a production. */
  datatype Sym =
    | N(n: Nonterminal)
    | Lit(w: string)                 // these characters
    | Class(cs: string)              // one character out of cs
    | Numeral(radix: Radix)
    | SizedName                      // a length and that many characters
    | CVQualifiers                   // [r] [V] [K], not empty
    | OperatorTable | BuiltinTable | SubstitutionTable
    | Opt(y: Sym)
    | Plus(m: Nonterminal)           // one or more
    | Prefix                         // the merged prefix, at nest level 0
    | Suffix                         // the optional version suffix
    | Emit(text: string)             // print text
    | EmitPrevious                   // print the last identifier again
    | Quiet(p: Pat)                  // p with printing off
    | Nested(y: Sym)                 // y at nest level 0

  datatype Pat = Done | Then(head: Sym, tail: Pat)

  /** Alternatives, in the order in which they are tried. */
  datatype Alts = Fail | Or(first: Pat, rest: Alts)

  function One(a: Sym): Pat { Then(a, Done) }
  function Two(a: Sym, b: Sym): Pat { Then(a, One(b)) }
  function Three(a: Sym, b: Sym, c: Sym): Pat { Then(a, Two(b, c)) }
  function Four(a: Sym, b: Sym, c: Sym, d: Sym): Pat { Then(a, Three(b, c, d)) }

  function Or1(a: Pat): Alts { Or(a, Fail) }
  function Or2(a: Pat, b: Pat): Alts { Or(a, Or1(b)) }
  function Or3(a: Pat, b: Pat, c: Pat): Alts { Or(a, Or2(b, c)) }
  function Or4(a: Pat, b: Pat, c: Pat, d: Pat): Alts { Or(a, Or3(b, c, d)) }
  function Or3More(a: Pat, b: Pat, c: Pat, more: Alts): Alts { Or(a, Or(b, Or(c, more))) }

  const NUMBER := Numeral(Decimal)

  /** The alternatives of a nonterminal, in the order in which they are tried. */
  function Rule(n: Nonterminal): Alts {
    match n
    case MangledName =>
      Or1(Three(Lit("_Z"), N(Encoding), Suffix))
    case Encoding =>
      Or3(Two(N(Name), N(BareFunctionType)),
          One(N(Name)),
          One(N(SpecialName)))
    case Name =>
      Or4(One(N(NestedName)),
          One(N(LocalName)),
          Two(N(UnscopedTemplateName), N(TemplateArgs)),
          One(N(UnscopedName)))
    case UnscopedName =>
      Or2(One(N(UnqualifiedName)),
          Three(Lit("St"), Emit("std::"), N(UnqualifiedName)))
    case UnscopedTemplateName =>
      Or2(One(N(UnscopedName)),
          One(N(Substitution)))
    case NestedName =>
      Or1(Four(Lit("N"), Opt(CVQualifiers), Prefix, Lit("E")))
    case PrefixItem =>
      Or3(One(N(TemplateParam)),
          One(N(Substitution)),
          One(N(UnscopedName)))
    case UnqualifiedName =>
      Or4(One(N(OperatorName)),
          One(N(CtorDtorName)),
          One(N(SourceName)),
          One(N(LocalSourceName)))
    case SourceName =>
      Or1(One(SizedName))
    case LocalSourceName =>
      Or1(Three(Lit("L"), N(SourceName), Opt(N(Discriminator))))
    case OperatorName =>
      Or3(Three(Lit("cv"), Emit("operator "), Nested(N(Type))),
          Three(Lit("v"), Class("0123456789"), N(SourceName)),
          One(OperatorTable))
    case SpecialName =>
      Or3More(Three(Lit("T"), Class("VTIS"), N(Type)),
              Four(Lit("Tc"), N(CallOffset), N(CallOffset), N(Encoding)),
              Two(Lit("GV"), N(Name)),
      Or(Three(Lit("T"), N(CallOffset), N(Encoding)), SpecialNameExtensions()))
    case CallOffset =>
      Or2(Three(Lit("h"), N(NVOffset), Lit("_")),
          Three(Lit("v"), N(VOffset), Lit("_")))
    case NVOffset =>
      Or1(One(NUMBER))
    case VOffset =>
      Or1(Three(NUMBER, Lit("_"), NUMBER))
    case CtorDtorName =>
      Or2(Three(Lit("C"), Class("123"), EmitPrevious),
          Four(Lit("D"), Class("012"), Emit("~"), EmitPrevious))
    case Type =>
      Or3More(Two(CVQualifiers, N(Type)),
              Two(Class("PRCG"), N(Type)),
              Three(Lit("U"), N(SourceName), N(Type)),
      SimpleTypes())
    case BuiltinType =>
      Or2(One(BuiltinTable),
          Two(Lit("u"), N(SourceName)))
    case FunctionType =>
      Or1(Four(Lit("F"), Opt(Lit("Y")), N(BareFunctionType), Lit("E")))
    case BareFunctionType =>
      Or1(Two(Quiet(One(Plus(Type))), Emit("()")))
    case ClassEnumType =>
      Or1(One(N(Name)))
    case ArrayType =>
      Or2(Four(Lit("A"), NUMBER, Lit("_"), N(Type)),
          Four(Lit("A"), Opt(N(Expression)), Lit("_"), N(Type)))
    case PointerToMemberType =>
      Or1(Three(Lit("M"), N(Type), N(Type)))
    case TemplateParam =>
      Or2(Two(Lit("T_"), Emit("?")),
          Four(Lit("T"), NUMBER, Lit("_"), Emit("?")))
    case TemplateTemplateParam =>
      Or2(One(N(TemplateParam)),
          One(N(Substitution)))
    case TemplateArgs =>
      Or1(Two(Quiet(Three(Lit("I"), Plus(TemplateArg), Lit("E"))), Emit("<>")))
    case TemplateArg =>
      Or3(One(N(Type)),
          One(N(ExprPrimary)),
          Three(Lit("X"), N(Expression), Lit("E")))
    case Expression =>
      Or3More(One(N(TemplateParam)),
              One(N(ExprPrimary)),
              Four(N(OperatorName), N(Expression), N(Expression), N(Expression)),
      MoreExpressions())
    case ExprPrimary =>
      Or4(Four(Lit("L"), N(Type), NUMBER, Lit("E")),
          Four(Lit("L"), N(Type), Numeral(Hexadecimal), Lit("E")),
          Three(Lit("L"), N(MangledName), Lit("E")),
          Three(Lit("LZ"), N(Encoding), Lit("E")))
    case LocalName =>
      Or2(Then(Lit("Z"), Then(N(Encoding), Four(Lit("E"), Emit("::"), N(Name), Opt(N(Discriminator))))),
          Four(Lit("Z"), N(Encoding), Lit("Es"), Opt(N(Discriminator))))
    case Discriminator =>
      Or1(Two(Lit("_"), NUMBER))
    case Substitution =>
      Or3(Two(Lit("S_"), Emit("?")),
          Four(Lit("S"), Numeral(Base36), Lit("_"), Emit("?")),
          Two(Lit("S"), SubstitutionTable))
  }

  /** The extensions of G++ among the special names. */
  function SpecialNameExtensions(): Alts {
    Or3More(Then(Lit("TC"), Four(N(Type), NUMBER, Lit("_"), Quiet(One(N(Type))))),
            Three(Lit("T"), Class("FJ"), N(Type)),
            Two(Lit("GR"), N(Name)),
    EncodingExtensions())
  }

  function EncodingExtensions(): Alts {
    Or2(Two(Lit("GA"), N(Encoding)),
        Four(Lit("T"), Class("hv"), N(CallOffset), N(Encoding)))
  }

  function SimpleTypes(): Alts {
    Or3More(One(N(BuiltinType)),
            One(N(FunctionType)),
            One(N(ClassEnumType)),
    CompoundTypes())
  }

  function CompoundTypes(): Alts {
    Or3More(One(N(ArrayType)),
            One(N(PointerToMemberType)),
            One(N(Substitution)),
    TemplateTypes())
  }

  function TemplateTypes(): Alts {
    Or2(Two(N(TemplateTemplateParam), N(TemplateArgs)),
        One(N(TemplateParam)))
  }

  function MoreExpressions(): Alts {
    Or3More(Three(N(OperatorName), N(Expression), N(Expression)),
            Two(N(OperatorName), N(Expression)),
            Two(Lit("st"), N(Type)),
    ScopeExpressions())
  }

  function ScopeExpressions(): Alts {
    Or2(Four(Lit("sr"), N(Type), N(UnqualifiedName), N(TemplateArgs)),
        Three(Lit("sr"), N(Type), N(UnqualifiedName)))
  }

  /** No nonterminal leads, without consuming a character first, to one of a level as high as its own. */
  function Level(n: Nonterminal): nat {
    match n
    case UnqualifiedName => 2 case TemplateTemplateParam => 2 case Expression => 2
    case UnscopedName => 3
    case UnscopedTemplateName => 4 case PrefixItem => 4
    case Name => 5
    case Encoding => 6 case ClassEnumType => 6
    case Type => 7
    case BareFunctionType => 8 case TemplateArg => 8
    case _ => 1
  }

  /** May the symbol succeed without consuming a character? */
  predicate NullableSym(y: Sym) {
    match y
    case Opt(_) => true case Prefix => true case Suffix => true
    case Emit(_) => true case EmitPrevious => true
    case Lit(w) => w == ""
    case Quiet(p) => NullablePat(p)
    case Nested(z) => NullableSym(z)
    case _ => false
  }

  predicate NullablePat(p: Pat) {
    p.Done? || (NullableSym(p.head) && NullablePat(p.tail))
  }

  function Higher(a: nat, b: nat): nat { if a < b then b else a }

  /** The highest level that the symbol can reach before it consumes a character. */
  function RankSym(y: Sym): nat {
    match y
    case N(n) => Level(n)
    case Plus(n) => Level(n)
    case Prefix => 4
    case Opt(z) => RankSym(z)
    case Quiet(p) => RankPat(p)
    case Nested(z) => RankSym(z)
    case _ => 0
  }

  function RankPat(p: Pat): nat {
    if p.Done? then 0
    else if NullableSym(p.head) then Higher(RankSym(p.head), RankPat(p.tail))
    else RankSym(p.head)
  }

  function SizeSym(y: Sym): nat {
    match y
    case N(_) => 1
    case Plus(_) => 3
    case Prefix => 3
    case Opt(z) => SizeSym(z) + 1
    case Quiet(p) => SizePat(p) + 1
    case Nested(z) => SizeSym(z) + 1
    case _ => 0
  }

  function SizePat(p: Pat): nat {
    if p.Done? then 0 else SizeSym(p.head) + SizePat(p.tail) + 1
  }

  /** Every alternative leads only to levels below the bound and consumes a character. */
  predicate Descends(alts: Alts, bound: nat) {
    alts.Or? ==> RankPat(alts.first) < bound && !NullablePat(alts.first) && Descends(alts.rest, bound)
  }

  /** The grammar has no left recursion, and no nonterminal derives the empty string. */
  lemma NoLeftRecursion(n: Nonterminal)
    ensures Descends(Rule(n), Level(n))
  {
    hide Descends, Rule, Level;
    NoLeftRecursionInNames();
    NoLeftRecursionInUnscopedNames();
    NoLeftRecursionInPrefixItems();
    NoLeftRecursionInSourceNames();
    NoLeftRecursionInLocalNames();
    NoLeftRecursionInOperatorNames();
    NoLeftRecursionInSpecialNames();
    NoLeftRecursionInOffsets();
    NoLeftRecursionInNumbers();
    NoLeftRecursionInDiscriminators();
    NoLeftRecursionInTypes();
    NoLeftRecursionInSmallTypes();
    NoLeftRecursionInFunctionTypes();
    NoLeftRecursionInClassEnumTypes();
    NoLeftRecursionInArrayTypes();
    NoLeftRecursionInTemplateParam();
    NoLeftRecursionInTemplateTemplateParam();
    NoLeftRecursionInTemplateArgs();
    NoLeftRecursionInTemplateArg();
    NoLeftRecursionInExpressions();
    NoLeftRecursionInLiterals();
    NoLeftRecursionInSubstitutions();
  }

  /** One step along a production. */
  lemma DescendsUnfolds()
    ensures forall p, rest, bound {:trigger Descends(Or(p, rest), bound)} ::
              Descends(Or(p, rest), bound) <==> RankPat(p) < bound && !NullablePat(p) && Descends(rest, bound)
    ensures forall bound {:trigger Descends(Fail, bound)} :: Descends(Fail, bound)
    ensures forall y, p {:trigger RankPat(Then(y, p))} ::
              RankPat(Then(y, p)) == if NullableSym(y) then Higher(RankSym(y), RankPat(p)) else RankSym(y)
    ensures forall y, p {:trigger NullablePat(Then(y, p))} ::
              NullablePat(Then(y, p)) <==> NullableSym(y) && NullablePat(p)
    ensures RankPat(Done) == 0 && NullablePat(Done)
  {
  }

  lemma NoLeftRecursionInNames()
    ensures Descends(Rule(MangledName), Level(MangledName))
    ensures Descends(Rule(Encoding), Level(Encoding))
    ensures Descends(Rule(Name), Level(Name))
  {
    hide Descends, RankPat, NullablePat;
    DescendsUnfolds();
  }

  lemma NoLeftRecursionInUnscopedNames()
    ensures Descends(Rule(UnscopedName), Level(UnscopedName))
    ensures Descends(Rule(UnscopedTemplateName), Level(UnscopedTemplateName))
  {
    hide Descends, RankPat, NullablePat;
    DescendsUnfolds();
  }

  lemma NoLeftRecursionInPrefixItems()
    ensures Descends(Rule(NestedName), Level(NestedName)) && Descends(Rule(PrefixItem), Level(PrefixItem))
  {
    hide Descends, RankPat, NullablePat;
    DescendsUnfolds();
  }

  lemma NoLeftRecursionInSourceNames()
    ensures Descends(Rule(UnqualifiedName), Level(UnqualifiedName))
    ensures Descends(Rule(SourceName), Level(SourceName))
    ensures Descends(Rule(LocalSourceName), Level(LocalSourceName))
  {
    hide Descends, RankPat, NullablePat;
    DescendsUnfolds();
  }

  lemma NoLeftRecursionInLocalNames()
    ensures Descends(Rule(LocalName), Level(LocalName))
  {
    hide Descends, RankPat, NullablePat;
    DescendsUnfolds();
  }

  lemma NoLeftRecursionInOperatorNames()
    ensures Descends(Rule(OperatorName), Level(OperatorName)) && Descends(Rule(CtorDtorName), Level(CtorDtorName))
  {
    hide Descends, RankPat, NullablePat;
    DescendsUnfolds();
  }

  lemma NoLeftRecursionInSpecialNames()
    ensures Descends(Rule(SpecialName), Level(SpecialName))
  {
    hide Descends, RankPat, NullablePat;
    DescendsUnfolds();
  }

  lemma NoLeftRecursionInOffsets()
    ensures Descends(Rule(CallOffset), Level(CallOffset)) && Descends(Rule(NVOffset), Level(NVOffset))
  {
    hide Descends, RankPat, NullablePat;
    DescendsUnfolds();
  }

  lemma NoLeftRecursionInNumbers()
    ensures Descends(Rule(VOffset), Level(VOffset))
  {
    hide Descends, RankPat, NullablePat;
    DescendsUnfolds();
  }

  lemma NoLeftRecursionInDiscriminators()
    ensures Descends(Rule(Discriminator), Level(Discriminator))
  {
    hide Descends, RankPat, NullablePat;
    DescendsUnfolds();
  }

  lemma NoLeftRecursionInSimpleTypes()
    ensures Descends(SimpleTypes(), Level(Type))
  {
    hide Descends, RankPat, NullablePat;
    DescendsUnfolds();
  }

  lemma NoLeftRecursionInTypes()
    ensures Descends(Rule(Type), Level(Type))
  {
    hide Descends, RankPat, NullablePat, SimpleTypes;
    DescendsUnfolds();
    NoLeftRecursionInSimpleTypes();
  }

  lemma NoLeftRecursionInSmallTypes()
    ensures Descends(Rule(BuiltinType), Level(BuiltinType)) && Descends(Rule(FunctionType), Level(FunctionType))
  {
    hide Descends, RankPat, NullablePat;
    DescendsUnfolds();
  }

  lemma NoLeftRecursionInFunctionTypes()
    ensures Descends(Rule(BareFunctionType), Level(BareFunctionType))
  {
    hide Descends, RankPat, NullablePat;
    DescendsUnfolds();
  }

  lemma NoLeftRecursionInClassEnumTypes()
    ensures Descends(Rule(ClassEnumType), Level(ClassEnumType))
  {
    hide Descends, RankPat, NullablePat;
    DescendsUnfolds();
  }

  lemma NoLeftRecursionInArrayTypes()
    ensures Descends(Rule(ArrayType), Level(ArrayType))
    ensures Descends(Rule(PointerToMemberType), Level(PointerToMemberType))
  {
    hide Descends, RankPat, NullablePat;
    DescendsUnfolds();
  }

  lemma NoLeftRecursionInTemplateParam()
    ensures Descends(Rule(TemplateParam), Level(TemplateParam))
  {
    hide Descends, RankPat, NullablePat;
    DescendsUnfolds();
  }

  lemma NoLeftRecursionInTemplateTemplateParam()
    ensures Descends(Rule(TemplateTemplateParam), Level(TemplateTemplateParam))
  {
    hide Descends, RankPat, NullablePat;
    DescendsUnfolds();
  }

  lemma NoLeftRecursionInTemplateArgs()
    ensures Descends(Rule(TemplateArgs), Level(TemplateArgs))
  {
    hide Descends, RankPat, NullablePat;
    DescendsUnfolds();
  }

  lemma NoLeftRecursionInTemplateArg()
    ensures Descends(Rule(TemplateArg), Level(TemplateArg))
  {
    hide Descends, RankPat, NullablePat;
    DescendsUnfolds();
  }

  lemma NoLeftRecursionInMoreExpressions()
    ensures Descends(MoreExpressions(), Level(Expression))
  {
    hide Descends, RankPat, NullablePat;
    DescendsUnfolds();
  }

  lemma NoLeftRecursionInExpressions()
    ensures Descends(Rule(Expression), Level(Expression))
  {
    hide Descends, RankPat, NullablePat, MoreExpressions;
    DescendsUnfolds();
    NoLeftRecursionInMoreExpressions();
  }

  lemma NoLeftRecursionInLiterals()
    ensures Descends(Rule(ExprPrimary), Level(ExprPrimary))
  {
    hide Descends, RankPat, NullablePat;
    DescendsUnfolds();
  }

  lemma NoLeftRecursionInSubstitutions()
    ensures Descends(Rule(Substitution), Level(Substitution))
  {
    hide Descends, RankPat, NullablePat;
    DescendsUnfolds();
  }
}
