/** The buffer of a run that has not overflowed: what silent parts add to it, and where the terminating NUL stands. */
module DemangleBuffer {
  import opened DemangleGrammar
  import opened DemangleSpec
  import opened DemangleDerivation

  // ---------- one print ----------

  lemma {:induction false} AppendExact(o: Out, w: string)
    requires OkOut(o) && !Append(o, w).overflowed
    ensures var t := Append(o, w);
            !o.overflowed && t.cur == o.cur + |w| && t.buf[..t.cur] == o.buf[..o.cur] + w && t.buf[t.cur] == '\0'
    decreases |w|
  {
    if w != "" {
      var o1 := Put(o, w[0]);
      AppendExact(o1, w[1..]);
      assert o1.buf[..o1.cur] == o.buf[..o.cur] + [w[0]];
      assert o.buf[..o.cur] + [w[0]] + w[1..] == o.buf[..o.cur] + w;
    }
  }

  /** The space that keeps two '<' apart. */
  function Gap(o: Out, w: string): string
    requires OkOut(o)
  {
    if w != "" && w[0] == '<' && 0 < o.cur && o.buf[o.cur - 1] == '<' then " " else ""
  }

  /** Without an overflow exactly the string is added, behind a space between two '<', and a NUL follows. */
  lemma SayExact(o: Out, w: string)
    requires OkOut(o) && w != "" && !Say(o, w).overflowed
    ensures var t := Say(o, w);
            !o.overflowed && t.buf[..t.cur] == o.buf[..o.cur] + Gap(o, w) + w && t.buf[t.cur] == '\0'
  {
    var o1 := Spaced(o, w[0]);
    var o2 := Remember(o1, w[0], |w|);
    AppendExact(o2, w);
    if Gap(o, w) != "" { AppendExact(o, " "); }
    hide Append;
    assert o2.buf[..o2.cur] == o.buf[..o.cur] + Gap(o, w);
  }

  // ---------- silent parts ----------

  /** A nonterminal whose only alternative is read silently and followed by w leaves the output as printing w does. */
  lemma SilentRun(n: Nonterminal, q: Pat, w: string, s: St)
    requires Ok(s) && Rule(n) == Or1(Two(Quiet(q), Emit(w)))
    ensures RunNt(n, s).Match? ==> RunNt(n, s).st.out == Print(s, w).out
  {
    hide RunNt, RunAlts, RunPat, RunQuiet, Print;
    var p := Two(Quiet(q), Emit(w));
    NtUnfolds(n, s);
    AltsUnfold(n, Or1(p), s);
    PatUnfolds(p, s);
    QuietRun(q, s);
    var r := RunSym(Quiet(q), s);
    if r.Match? {
      EmitRun(w, r.st);
      PrintAlike(s, r.st, w);
    }
  }

  lemma QuietRun(q: Pat, s: St)
    requires Ok(s)
    ensures var r := RunSym(Quiet(q), s);
            (r.Match? ==> r.st.append == s.append) && (!r.Fault? ==> r.st.out == s.out && Ok(r.st))
  {
    assert RunSym(Quiet(q), s) == RunQuiet(q, s);
  }

  lemma EmitRun(w: string, s: St)
    requires Ok(s)
    ensures RunPat(One(Emit(w)), s).Match? && RunPat(One(Emit(w)), s).st == Print(s, w)
  {
    PatUnfolds(One(Emit(w)), s);
    assert RunSym(Emit(w), s) == RunTerminal(Emit(w), s) == Match(Print(s, w), Eps);
    assert RunPat(Done, Print(s, w)) == Match(Print(s, w), Eps);
    hide *;
  }

  lemma PrintAlike(s: St, t: St, w: string)
    requires Ok(s) && Ok(t) && t.append == s.append && t.out == s.out
    ensures Print(t, w).out == Print(s, w).out
  {
  }

  /** On every run <bare-function-type> writes what printing "()" does and <template-args> what printing "<>" does,
      whatever the types and arguments. */
  lemma SilentPartsOfARun(s: St)
    requires Ok(s)
    ensures RunNt(BareFunctionType, s).Match? ==> RunNt(BareFunctionType, s).st.out == Print(s, "()").out
    ensures RunNt(TemplateArgs, s).Match? ==> RunNt(TemplateArgs, s).st.out == Print(s, "<>").out
  {
    hide RunNt, Print;
    SilentSignature(s);
    SilentArguments(s);
  }

  lemma SilentSignature(s: St)
    requires Ok(s)
    ensures RunNt(BareFunctionType, s).Match? ==> RunNt(BareFunctionType, s).st.out == Print(s, "()").out
  {
    hide RunNt, Print;
    SilentRun(BareFunctionType, One(Plus(Type)), "()", s);
  }

  lemma SilentArguments(s: St)
    requires Ok(s)
    ensures RunNt(TemplateArgs, s).Match? ==> RunNt(TemplateArgs, s).st.out == Print(s, "<>").out
  {
    hide RunNt, Print;
    SilentRun(TemplateArgs, Three(Lit("I"), Plus(TemplateArg), Lit("E")), "<>", s);
  }

  /** So absent overflow they add exactly "()" and "<>" with at most one space to the buffer; with printing off
      nothing. */
  lemma SilentPartsAreShort(s: St, n: Nonterminal)
    requires Ok(s) && n in {BareFunctionType, TemplateArgs} && RunNt(n, s).Match?
    ensures var o, w := RunNt(n, s).st.out, if n == TemplateArgs then "<>" else "()";
            if !s.append then o == s.out
            else !o.overflowed ==> o.buf[..o.cur] == s.out.buf[..s.out.cur] + Gap(s.out, w) + w && o.buf[o.cur] == '\0'
  {
    SilentPartsOfARun(s);
    var w := if n == TemplateArgs then "<>" else "()";
    hide RunNt, Say;
    if s.append && !Print(s, w).out.overflowed { SayExact(s.out, w); }
  }

  // ---------- the terminating NUL ----------

  /** A NUL stands at the cursor, unless something did not fit. */
  predicate Ended(o: Out)
    requires OkOut(o)
  {
    o.overflowed || o.buf[o.cur] == '\0'
  }

  lemma {:induction false} AppendEnds(o: Out, w: string)
    requires OkOut(o)
    ensures Ended(Append(o, w))
    decreases |w|
  {
    if w != "" && o.cur + 1 < |o.buf| { AppendEnds(Put(o, w[0]), w[1..]); }
  }

  lemma {:induction false} AppendCopyEnds(o: Out, from: nat, len: nat)
    requires OkOut(o)
    ensures Ended(AppendCopy(o, from, len))
    decreases len
  {
    if len > 0 && o.cur + 1 < |o.buf| { AppendCopyEnds(Put(o, At(o.buf, from)), from + 1, len - 1); }
  }

  lemma PrintEnds(s: St, w: string)
    requires Ok(s) && s.append
    ensures w != "" || Ended(s.out) ==> Ended(Print(s, w).out)
  {
    if w != "" { AppendEnds(Remember(Spaced(s.out, w[0]), w[0], |w|), w); }
  }

  lemma PrintPreviousEnds(s: St)
    requires Ok(s) && s.append && Ended(s.out)
    ensures Ended(PrintPrevious(s).out)
  {
    var o := s.out;
    if o.prevLen > 0 {
      var t := Spaced(o, o.buf[o.prevName]);
      AppendCopyEnds(Remember(t, t.buf[o.prevName], o.prevLen), o.prevName, o.prevLen);
    }
  }

  /** Reading it never takes the NUL away. */
  predicate Harmless(y: Sym) {
    match y
    case N(n) => n == Discriminator
    case Plus(_) => false
    case Opt(z) => z.Lit? || z.CVQualifiers? || z == N(Discriminator)
    case Nested(_) => false
    case Prefix => false
    case _ => true
  }

  predicate HarmlessPat(p: Pat) { p.Then? ==> Harmless(p.head) && HarmlessPat(p.tail) }

  /** The derivation prints something, and after the last thing it prints nothing is tried that could write and be
      taken back: what it names last is not empty. */
  predicate Speaks(y: Sym, t: Tree)
    decreases t, SizeSym(y)
  {
    match y
    case N(_) => t.Node? && SpeaksPat(t.p, t.body)
    case SizedName => t.Pair? && t.b.Text? && t.b.w != ""
    case OperatorTable => true
    case BuiltinTable => true
    case SubstitutionTable => true
    case Prefix => t.Pair?
    case Suffix => t.Text? && t.w != ""
    case Emit(w) => w != ""
    case Opt(z) => !t.Eps? && Speaks(z, t)
    case Nested(z) => Speaks(z, t)
    case _ => false
  }

  predicate SpeaksPat(p: Pat, t: Tree)
    decreases t, SizePat(p)
  {
    p.Then? && t.Pair? && (SpeaksPat(p.tail, t.b) || (HarmlessPat(p.tail) && Speaks(p.head, t.a)))
  }

  lemma OperatorTextEnds(w: string, s: St)
    requires Ok(s) && s.append
    ensures Ended(OperatorText(w, s).out)
  {
    var s1 := Print(s, "operator");
    PrintEnds(s, "operator");
    PrintEnds(s1, " ");
    hide Print;
    PrintEnds(if w != "" && IsLower(w[0]) then Print(s1, " ") else s1, w);
  }

  lemma SubstitutionTextEnds(w: string, s: St)
    requires Ok(s) && s.append
    ensures Ended(SubstitutionText(w, s).out)
  {
    var s1 := Print(s, "std");
    PrintEnds(s, "std");
    PrintEnds(s1, "::");
    hide Print;
    PrintEnds(Print(s1, "::"), w);
  }

  lemma BuiltinsNamed(k: nat, key: Key)
    requires k <= |BUILTINS|
    ensures var i := Find(BUILTINS, k, key); i < |BUILTINS| ==> BUILTINS[i].long != ""
  {
    hide Find;
    assert forall i :: 0 <= i < |BUILTINS| ==> BUILTINS[i].long != "";
  }

  lemma TablesEnd(y: Sym, s: St)
    requires Ok(s) && s.append && (y.OperatorTable? || y.BuiltinTable? || y.SubstitutionTable?)
    ensures RunTerminal(y, s).Match? ==> Ended(RunTerminal(y, s).st.out)
  {
    hide Print, OperatorText, SubstitutionText, BUILTINS, OPERATORS, SUBSTITUTIONS, Find;
    if RunTerminal(y, s).Match? {
      match y
      case OperatorTable =>
        OperatorTextEnds(OPERATORS[Find(OPERATORS, 0, Both(s.src[s.cur], s.src[s.cur + 1]))].long, s);
      case BuiltinTable =>
        var i := Find(BUILTINS, 0, First(s.src[s.cur]));
        BuiltinsNamed(0, First(s.src[s.cur]));
        PrintEnds(s, BUILTINS[i].long);
      case SubstitutionTable =>
        SubstitutionTextEnds(SUBSTITUTIONS[Find(SUBSTITUTIONS, 0, Second(s.src[s.cur]))].long, s);
    }
  }

  lemma SizedNameEnds(s: St)
    requires Ok(s) && s.append
    ensures var r := RunSizedName(s);
            r.Match? && (Ended(s.out) || Speaks(SizedName, r.tree)) ==> Ended(r.st.out)
  {
    hide Print, IdentifierText;
    var r := RunNumeral(Decimal, s);
    assert r.Match? ==> r.st.out == s.out;
    hide RunNumeral;
    if r.Match? && 0 <= r.st.number <= Left(r.st) {
      var w := s.src[r.st.cur..r.st.cur + r.st.number];
      IdentifierNamed(w);
      PrintEnds(r.st, IdentifierText(w));
    }
  }

  lemma IdentifierNamed(w: string)
    ensures w != "" ==> IdentifierText(w) != ""
  {
  }

  lemma TerminalEnds(y: Sym, s: St)
    requires Ok(s) && s.append
    ensures var r := RunTerminal(y, s);
            r.Match? && (Ended(s.out) || Speaks(y, r.tree)) ==> Ended(r.st.out)
  {
    hide Print, RunSizedName, PrintPrevious, RunNumeral;
    match y
    case OperatorTable => TablesEnd(y, s);
    case BuiltinTable => TablesEnd(y, s);
    case SubstitutionTable => TablesEnd(y, s);
    case SizedName => SizedNameEnds(s);
    case Suffix => PrintEnds(s, s.src[s.cur..]);
    case Emit(w) => PrintEnds(s, w);
    case EmitPrevious => if Ended(s.out) { PrintPreviousEnds(s); }
    case Numeral(radix) => NumeralSilent(radix, s);
    case _ =>
  }

  lemma NumeralSilent(radix: Radix, s: St)
    requires Ok(s)
    ensures RunNumeral(radix, s).Match? ==> RunNumeral(radix, s).st.out == s.out
  {
  }

  lemma DiscriminatorSilent(s: St)
    requires Ok(s)
    ensures !RunNt(Discriminator, s).Fault? && RunNt(Discriminator, s).st.out == s.out
  {
    hide RunNt, RunPat;
    SingleUnfolds(Discriminator, Two(Lit("_"), NUMBER), s);
    UnderscoreSilent(s);
  }

  lemma UnderscoreSilent(s: St)
    requires Ok(s)
    ensures var r := RunPat(Two(Lit("_"), NUMBER), s); !r.Fault? && r.st.out == s.out
  {
    hide RunPat, RunSym, RunNumeral;
    var p := Two(Lit("_"), NUMBER);
    PatUnfolds(p, s);
    TerminalUnfolds(Lit("_"), s);
    var r := RunSym(Lit("_"), s);
    if r.Match? {
      PatUnfolds(p.tail, r.st);
      TerminalUnfolds(NUMBER, r.st);
      NumberSilent(r.st);
      if RunSym(NUMBER, r.st).Match? { DoneUnfolds(RunSym(NUMBER, r.st).st); }
    }
  }

  lemma NumberSilent(s: St)
    requires Ok(s)
    ensures !RunTerminal(NUMBER, s).Fault? && RunTerminal(NUMBER, s).st.out == s.out
  {
  }

  lemma HarmlessKeeps(y: Sym, s: St)
    requires Ok(s) && s.append && Harmless(y) && Ended(s.out)
    ensures RunSym(y, s).Match? ==> Ended(RunSym(y, s).st.out)
  {
    hide RunNt, RunTerminal, RunPat, Speaks;
    match y
    case N(_) => DiscriminatorSilent(s);
    case Quiet(_) =>
    case Opt(z) => HarmlessOption(z, s);
    case _ => TerminalEnds(y, s);
  }

  lemma HarmlessOption(z: Sym, s: St)
    requires Ok(s) && s.append && Harmless(Opt(z)) && Ended(s.out)
    ensures RunSym(Opt(z), s).Match? ==> Ended(RunSym(Opt(z), s).st.out)
  {
    assert RunSym(Opt(z), s) == RunOpt(z, s);
    if z.N? {
      DiscriminatorSilent(s);
      NtSym(Discriminator, s);
    } else {
      TerminalUnfolds(z, s);
    }
    hide RunSym, RunNt;
  }

  lemma {:induction false} HarmlessPatKeeps(p: Pat, s: St)
    requires Ok(s) && s.append && HarmlessPat(p) && Ended(s.out)
    ensures RunPat(p, s).Match? ==> Ended(RunPat(p, s).st.out)
    decreases p
  {
    hide RunPat, RunSym, Harmless;
    if p.Done? {
      DoneUnfolds(s);
    } else {
      PatUnfolds(p, s);
      HarmlessKeeps(p.head, s);
      var r := RunSym(p.head, s);
      if r.Match? {
        SymAppend(p.head, s);
        HarmlessPatKeeps(p.tail, r.st);
      }
    }
  }

  lemma SymAppend(y: Sym, s: St)
    requires Ok(s)
    ensures var r := RunSym(y, s); r.Match? ==> Ok(r.st) && r.st.append == s.append
  {
  }

  // The induction over the run.

  /** What speaks has put a NUL behind its text. */
  lemma {:induction false} SymEnds(y: Sym, s: St)
    requires Ok(s) && s.append
    ensures var r := RunSym(y, s); r.Match? && Speaks(y, r.tree) ==> Ended(r.st.out)
    decreases |s.src| - s.cur, RankSym(y), SizeSym(y), 1
  {
    match y
    case N(n) => NtEnds(n, s);
    case Plus(_) =>
    case Opt(z) => SymEnds(z, s);
    case Quiet(_) =>
    case Nested(z) => SymEnds(z, s.(nest := 0));
    case Prefix => PrefixSymEnds(s);
    case _ => TerminalEnds(y, s);
  }

  lemma {:induction false} PatEnds(p: Pat, s: St)
    requires Ok(s) && s.append
    ensures var r := RunPat(p, s); r.Match? && SpeaksPat(p, r.tree) ==> Ended(r.st.out)
    decreases |s.src| - s.cur, RankPat(p), SizePat(p), 0
  {
    if p.Then? {
      PatUnfolds(p, s);
      var r := RunSym(p.head, s);
      SymAppend(p.head, s);
      hide RunPat, RunSym, Speaks, HarmlessPat;
      SymEnds(p.head, s);
      if r.Match? {
        PatEnds(p.tail, r.st);
        if HarmlessPat(p.tail) && Ended(r.st.out) { HarmlessPatKeeps(p.tail, r.st); }
      }
    }
  }

  lemma {:induction false} NtEnds(n: Nonterminal, s: St)
    requires Ok(s) && s.append
    ensures var r := RunNt(n, s); r.Match? && Speaks(N(n), r.tree) ==> Ended(r.st.out)
    decreases |s.src| - s.cur, Level(n), 1, 0
  {
    hide RunNt, RunAlts, RunPat, SpeaksPat, Rule;
    NtUnfolds(n, s);
    AltsEnd(n, Rule(n), s);
  }

  lemma {:induction false} AltsEnd(n: Nonterminal, alts: Alts, s: St)
    requires Ok(s) && s.append && Descends(alts, Level(n))
    ensures var r := RunAlts(n, alts, s); r.Match? && Speaks(N(n), r.tree) ==> Ended(r.st.out)
    decreases |s.src| - s.cur, Level(n), 0, alts
  {
    if alts.Or? {
      AltsUnfold(n, alts, s);
      hide RunAlts, RunPat, SpeaksPat;
      PatEnds(alts.first, s);
      var r := RunPat(alts.first, s);
      if r.NoMatch? && alts.rest.Or? { AltsEnd(n, alts.rest, Restore(s, r.st)); }
    }
  }

  /** The last separator of a prefix with an item is taken back, and that writes a NUL. */
  lemma PrefixSymEnds(s: St)
    requires Ok(s) && s.append
    ensures var r := RunSym(Prefix, s); r.Match? && r.tree.Pair? ==> Ended(r.st.out)
  {
    var t := s.(nest := 0);
    assert RunSym(Prefix, s) == LevelBack(s, RunPrefix(false, t));
    PrefixUnfolds(false, t);
    hide RunSym, RunPrefix, RunNt;
    var r := RunNt(PrefixItem, Separate(t));
    if r.Match? {
      NtAppend(PrefixItem, Separate(t));
      PrefixEnds(true, Deeper(r.st));
    }
  }

  lemma NtAppend(n: Nonterminal, s: St)
    requires Ok(s)
    ensures var r := RunNt(n, s);
            r.Match? ==> Ok(r.st) && r.st.append == s.append && r.st.nest == s.nest && r.st.src == s.src
                         && s.cur < r.st.cur
  {
  }

  lemma SeparatorBack(s: St, t: St)
    requires Ok(s) && s.append && s.nest >= 1 && Ok(t) && t == Restore(Separate(s), t)
    ensures Ended(CancelSeparator(t).out)
  {
    hide Say;
    if !Separate(s).out.overflowed { SayExact(s.out, "::"); }
  }

  lemma {:induction false} PrefixEnds(has: bool, s: St)
    requires Ok(s) && s.append && s.nest >= 1
    ensures RunPrefix(has, s).Match? ==> Ended(RunPrefix(has, s).st.out)
    decreases |s.src| - s.cur
  {
    PrefixUnfolds(has, s);
    hide RunPrefix, RunPrefixArgs, RunNt, Restore;
    var r := RunNt(PrefixItem, Separate(s));
    if r.Match? {
      NtAppend(PrefixItem, Separate(s));
      PrefixEnds(true, Deeper(r.st));
    } else if r.NoMatch? {
      hide Separate, CancelSeparator;
      SeparatorBack(s, r.st);
      var t := CancelSeparator(r.st);
      PrefixArgsUnfold(t);
      ArgsFailSilently(t);
      var q := RunNt(TemplateArgs, t);
      if q.Match? {
        NtAppend(TemplateArgs, t);
        PrefixEnds(false, q.st);
      }
    }
  }

  lemma ArgsFailSilently(s: St)
    requires Ok(s)
    ensures RunNt(TemplateArgs, s).NoMatch? ==> RunNt(TemplateArgs, s).st.out == s.out
  {
    hide RunNt, RunPat;
    var q := Three(Lit("I"), Plus(TemplateArg), Lit("E"));
    SingleUnfolds(TemplateArgs, Two(Quiet(q), Emit("<>")), s);
    QuietFailsSilently(q, s);
  }

  lemma QuietFailsSilently(q: Pat, s: St)
    requires Ok(s)
    ensures var r := RunPat(Two(Quiet(q), Emit("<>")), s); r.NoMatch? ==> r.st.out == s.out
  {
    hide RunPat, RunSym, Print;
    PatUnfolds(Two(Quiet(q), Emit("<>")), s);
    QuietRun(q, s);
    if RunSym(Quiet(q), s).Match? { EmitRun("<>", RunSym(Quiet(q), s).st); }
  }

  // ---------- names that are not empty ----------

  /** What always says something if its names are not empty. */
  predicate Speaking(y: Sym)
    decreases y
  {
    match y
    case N(n) => n != Discriminator && n != CallOffset && n != NVOffset && n != VOffset
    case SizedName => true
    case OperatorTable => true
    case BuiltinTable => true
    case SubstitutionTable => true
    case Prefix => true
    case Emit(w) => w != ""
    case Nested(z) => Speaking(z)
    case _ => false
  }

  predicate Closes(p: Pat)
    decreases p
  {
    p.Then? && (Closes(p.tail) || (HarmlessPat(p.tail) && Speaking(p.head)))
  }

  /** A constructor says only what was said before. */
  const CONSTRUCTOR := Three(Lit("C"), Class("123"), EmitPrevious)

  predicate AllClose(alts: Alts)
    decreases alts
  {
    alts.Or? ==> (alts.first == CONSTRUCTOR || Closes(alts.first)) && AllClose(alts.rest)
  }

  /** Every alternative of what speaks has a last part that speaks. */
  lemma RuleCloses(n: Nonterminal)
    requires Speaking(N(n))
    ensures AllClose(Rule(n))
  {
    hide AllClose, Rule;
    EncodingsClose();
    NamesClose();
    UnscopedTemplateNameCloses();
    NestedNameCloses();
    PrefixItemCloses();
    UnqualifiedNameCloses();
    SourceNamesClose();
    LocalNameCloses();
    OperatorNameCloses();
    SpecialNameCloses();
    CtorDtorNameCloses();
    TypeCloses();
    FunctionTypeCloses();
    BareFunctionTypeCloses();
    BuiltinTypeCloses();
    ClassEnumTypeCloses();
    ArrayTypeCloses();
    PointerToMemberTypeCloses();
    TemplateParamCloses();
    TemplateTemplateParamCloses();
    TemplateArgsClose();
    TemplateArgCloses();
    ExpressionCloses();
    ExprPrimaryCloses();
    SubstitutionCloses();
  }

  /** One step along a production. */
  lemma ClosesUnfolds()
    ensures forall y, p {:trigger Closes(Then(y, p))} ::
              Closes(Then(y, p)) <==> Closes(p) || (HarmlessPat(p) && Speaking(y))
    ensures forall y, p {:trigger HarmlessPat(Then(y, p))} ::
              HarmlessPat(Then(y, p)) <==> Harmless(y) && HarmlessPat(p)
    ensures forall p, rest {:trigger AllClose(Or(p, rest))} ::
              Closes(p) && AllClose(rest) ==> AllClose(Or(p, rest))
    ensures forall rest {:trigger AllClose(Or(CONSTRUCTOR, rest))} :: AllClose(rest) ==> AllClose(Or(CONSTRUCTOR, rest))
    ensures !Closes(Done) && HarmlessPat(Done) && AllClose(Fail)
  {
  }

  lemma EncodingsClose()
    ensures AllClose(Rule(MangledName)) && AllClose(Rule(Encoding))
  {
    hide Closes, HarmlessPat, AllClose;
    ClosesUnfolds();
  }

  lemma NamesClose()
    ensures AllClose(Rule(Name)) && AllClose(Rule(UnscopedName))
  {
    hide Closes, HarmlessPat, AllClose;
    ClosesUnfolds();
  }

  lemma UnscopedTemplateNameCloses()
    ensures AllClose(Rule(UnscopedTemplateName))
  {
    hide Closes, HarmlessPat, AllClose;
    ClosesUnfolds();
  }

  lemma NestedNameCloses()
    ensures AllClose(Rule(NestedName))
  {
    hide Closes, HarmlessPat, AllClose;
    ClosesUnfolds();
  }

  lemma PrefixItemCloses()
    ensures AllClose(Rule(PrefixItem))
  {
    hide Closes, HarmlessPat, AllClose;
    ClosesUnfolds();
  }

  lemma UnqualifiedNameCloses()
    ensures AllClose(Rule(UnqualifiedName))
  {
    hide Closes, HarmlessPat, AllClose;
    ClosesUnfolds();
  }

  lemma SourceNamesClose()
    ensures AllClose(Rule(SourceName)) && AllClose(Rule(LocalSourceName))
  {
    hide Closes, HarmlessPat, AllClose;
    ClosesUnfolds();
  }

  lemma LocalNameCloses()
    ensures AllClose(Rule(LocalName))
  {
    hide Closes, HarmlessPat, AllClose;
    ClosesUnfolds();
  }

  lemma OperatorNameCloses()
    ensures AllClose(Rule(OperatorName))
  {
    hide Closes, HarmlessPat, AllClose;
    ClosesUnfolds();
  }

  lemma SpecialNameCloses()
    ensures AllClose(Rule(SpecialName))
  {
    hide Closes, HarmlessPat, AllClose;
    ClosesUnfolds();
  }

  lemma CtorDtorNameCloses()
    ensures AllClose(Rule(CtorDtorName))
  {
    hide Closes, HarmlessPat, AllClose;
    ClosesUnfolds();
  }

  lemma SimpleTypesClose()
    ensures AllClose(SimpleTypes())
  {
    hide Closes, HarmlessPat, AllClose;
    ClosesUnfolds();
  }

  lemma TypeCloses()
    ensures AllClose(Rule(Type))
  {
    hide Closes, HarmlessPat, AllClose, SimpleTypes;
    ClosesUnfolds();
    SimpleTypesClose();
  }

  lemma FunctionTypeCloses()
    ensures AllClose(Rule(FunctionType))
  {
    hide Closes, HarmlessPat, AllClose;
    ClosesUnfolds();
  }

  lemma BareFunctionTypeCloses()
    ensures AllClose(Rule(BareFunctionType))
  {
    hide Closes, HarmlessPat, AllClose;
    ClosesUnfolds();
  }

  lemma BuiltinTypeCloses()
    ensures AllClose(Rule(BuiltinType))
  {
    hide Closes, HarmlessPat, AllClose;
    ClosesUnfolds();
  }

  lemma ClassEnumTypeCloses()
    ensures AllClose(Rule(ClassEnumType))
  {
    hide Closes, HarmlessPat, AllClose;
    ClosesUnfolds();
  }

  lemma ArrayTypeCloses()
    ensures AllClose(Rule(ArrayType))
  {
    hide Closes, HarmlessPat, AllClose;
    ClosesUnfolds();
  }

  lemma PointerToMemberTypeCloses()
    ensures AllClose(Rule(PointerToMemberType))
  {
    hide Closes, HarmlessPat, AllClose;
    ClosesUnfolds();
  }

  lemma TemplateParamCloses()
    ensures AllClose(Rule(TemplateParam))
  {
    hide Closes, HarmlessPat, AllClose;
    ClosesUnfolds();
  }

  lemma TemplateTemplateParamCloses()
    ensures AllClose(Rule(TemplateTemplateParam))
  {
    hide Closes, HarmlessPat, AllClose;
    ClosesUnfolds();
  }

  lemma TemplateArgsClose()
    ensures AllClose(Rule(TemplateArgs))
  {
    hide Closes, HarmlessPat, AllClose;
    ClosesUnfolds();
  }

  lemma TemplateArgCloses()
    ensures AllClose(Rule(TemplateArg))
  {
    hide Closes, HarmlessPat, AllClose;
    ClosesUnfolds();
  }

  lemma MoreExpressionsClose()
    ensures AllClose(MoreExpressions())
  {
    hide Closes, HarmlessPat, AllClose;
    ClosesUnfolds();
  }

  lemma ExpressionCloses()
    ensures AllClose(Rule(Expression))
  {
    hide Closes, HarmlessPat, AllClose, MoreExpressions;
    ClosesUnfolds();
    MoreExpressionsClose();
  }

  lemma ExprPrimaryCloses()
    ensures AllClose(Rule(ExprPrimary))
  {
    hide Closes, HarmlessPat, AllClose;
    ClosesUnfolds();
  }

  lemma SubstitutionCloses()
    ensures AllClose(Rule(Substitution))
  {
    hide Closes, HarmlessPat, AllClose;
    ClosesUnfolds();
  }

  /** No source name and no nested name in the derivation is empty, and every constructor in it belongs to a nested
      name; what is read silently plays no part. */
  predicate Named(y: Sym, t: Tree)
    decreases t, SizeSym(y)
  {
    match y
    case N(_) => t.Node? ==> t.p != CONSTRUCTOR && NamedPat(t.p, t.body)
    case SizedName => t.Pair? && t.b.Text? ==> t.b.w != ""
    case Prefix => t.Pair?
    case Opt(z) => t.Eps? || Named(z, t)
    case Nested(z) => Named(z, t)
    case _ => true
  }

  predicate NamedPat(p: Pat, t: Tree)
    decreases t, SizePat(p)
  {
    p.Then? && t.Pair? ==> Named(p.head, t.a) && NamedPat(p.tail, t.b)
  }

  lemma {:induction false} NamedSpeaks(y: Sym, t: Tree)
    requires DerivesSym(y, t) && Named(y, t) && Speaking(y)
    ensures Speaks(y, t)
    decreases t, SizeSym(y)
  {
    match y
    case N(n) =>
      RuleCloses(n);
      AlternativeCloses(t.p, Rule(n));
      NamedPatSpeaks(t.p, t.body);
    case Nested(z) => NamedSpeaks(z, t);
    case _ =>
  }

  lemma {:induction false} AlternativeCloses(p: Pat, alts: Alts)
    requires IsAlternative(p, alts) && AllClose(alts)
    ensures p == CONSTRUCTOR || Closes(p)
    decreases alts
  {
    if p != alts.first { AlternativeCloses(p, alts.rest); }
  }

  lemma {:induction false} NamedPatSpeaks(p: Pat, t: Tree)
    requires DerivesPat(p, t) && NamedPat(p, t) && Closes(p)
    ensures SpeaksPat(p, t)
    decreases t, SizePat(p)
  {
    if Closes(p.tail) {
      NamedPatSpeaks(p.tail, t.b);
    } else {
      NamedSpeaks(p.head, t.a);
    }
  }
}
