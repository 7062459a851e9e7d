/** Mangled names are read back: the demangler accepts the symbol of every name, and shows the name. */
module DemangleRoundTrip {
  import opened DemangleGrammar
  import opened DemangleSpec
  import opened DemangleLookahead
  import opened DemangleOutput
  import opened DemangleDerivation
  import opened DemangleLength
  import opened DemangleNames
  import opened DemangleControl
  import opened DemangleReading
  import opened DemangleShown

  // ---------- abbreviations and parameters ----------

  lemma Within(s: St)
    requires Ok(s)
    ensures 0 <= s.cur <= |s.src|
  {
  }

  /** The character that follows w. */
  function Next(s: St, w: string): char
    requires Ok(s)
  {
    CharAt(s.src, s.cur + |w|)
  }

  lemma SubstitutionLetters(ch: char)
    requires InTable(SUBSTITUTIONS, Second(ch))
    ensures IsLower(ch)
  {
    FoundInTable(SUBSTITUTIONS, 0, Second(ch));
    hide Find;
  }

  lemma BuiltinLetters(ch: char)
    requires InTable(BUILTINS, First(ch))
    ensures IsLower(ch) && ch != 'r'
  {
    BuiltinLetter(Find(BUILTINS, 0, First(ch)));
    FoundInTable(BUILTINS, 0, First(ch));
    hide Find, BUILTINS;
  }

  lemma BuiltinLetter(i: nat)
    requires i < |BUILTINS|
    ensures IsLower(BUILTINS[i].a) && BUILTINS[i].a != 'r' && BUILTINS[i].a != 'u'
  {
  }

  lemma SecondChar(s: St, w: string)
    requires Ok(s) && Starts(s.src, s.cur, w) && |w| >= 2
    ensures s.cur + 2 <= |s.src| && s.src[s.cur..s.cur + 2] == w[..2]
  {
    TakeOfSlice(s.src, s.cur, s.cur + |w|, 2);
  }

  /** A letter, a number and an underscore. */
  lemma NumberedReads(letter: string, first: string, radix: Radix, n: nat, s: St, c: Ctx)
    requires Silent(s) && |letter| == 1 && first == letter + "_" && radix != Hexadecimal && n > 0
    requires Starts(s.src, s.cur, letter + Id(n, Base(radix)))
    ensures RunPat(Two(Lit(first), Emit("?")), s).NoMatch?
    ensures
      ScansPat(Four(Lit(letter), Numeral(radix), Lit("_"), Emit("?")), s, letter + Id(n, Base(radix)), c, Said(c, "?"))
  {
    hide RunPat, RunSym, Scans, ScansPat, Digits, Digit, Starts, Said;
    var w := Digits(n - 1, Base(radix));
    NotUnderscore(letter, radix, n, s);
    LitFails(first, One(Emit("?")), s);
    StartsSplits(s.src, s.cur, letter, w + "_");
    LitReads(letter, s, c);
    var t := Advance(Lit(letter), s, letter, c, c);
    StartsSplits(s.src, t.cur, w, "_");
    UnderscoreIsNoDigit(radix);
    DigitsRead(radix, n - 1, t, c);
    var u := Advance(Numeral(radix), t, w, c, c);
    LitReads("_", u, c);
    ThenEmits(Lit("_"), "?", u, "_", c, c);
    ThenReads(Numeral(radix), Two(Lit("_"), Emit("?")), t, w, "_", c, c, Said(c, "?"));
    ThenReads(Lit(letter), Three(Numeral(radix), Lit("_"), Emit("?")), s, letter, w + "_", c, c, Said(c, "?"));
  }

  lemma NotUnderscore(letter: string, radix: Radix, n: nat, s: St)
    requires Ok(s) && |letter| == 1 && radix != Hexadecimal && n > 0
    requires Starts(s.src, s.cur, letter + Id(n, Base(radix)))
    ensures !Starts(s.src, s.cur, letter + "_")
  {
    hide Digits, Digit;
    var w := Digits(n - 1, Base(radix));
    DigitsAreDigits(n - 1, radix);
    UnderscoreIsNoDigit(radix);
    SecondChar(s, letter + Id(n, Base(radix)));
    assert (letter + (w + "_"))[..2][1] == w[0];
    assert (letter + "_")[1] == '_';
  }

  lemma UnderscoreIsNoDigit(radix: Radix)
    ensures Digit(radix, '_') < 0
  {
  }

  lemma StandardReads(ch: char, s: St, c: Ctx)
    requires Silent(s) && GoodSub(Standard(ch)) && Starts(s.src, s.cur, "S" + [ch])
    ensures Scans(N(Substitution), s, "S" + [ch], c, SaidSub(Standard(ch), c))
  {
    hide Ok, RunPat, RunSym, Scans, ScansPat, Find, Entry, SaidSubstitution, Said;
    Within(s);
    var p, w, d := Two(Lit("S"), SubstitutionTable), "S" + [ch], SaidSub(Standard(ch), c);
    SubstitutionLetters(ch);
    SecondChar(s, w);
    StartsSplits(s.src, s.cur, "S", [ch]);
    LitFails("S_", One(Emit("?")), s);
    hide Starts, GoodSub;
    LitReads("S", s, c);
    var t := Advance(Lit("S"), s, "S", c, c);
    SecondFails(Lit("S"), Numeral(Base36), Two(Lit("_"), Emit("?")), s, "S", c, c);
    SubstitutionReads(ch, t, c);
    TwoRead(Lit("S"), SubstitutionTable, s, "S", [ch], c, c, d);
    ThirdReads(Substitution, p, s, w, c, d);
  }

  lemma FirstOfSequence(n: Nonterminal, w: string, s: St, c: Ctx)
    requires Rule(n).Or? && Rule(n).first == Two(Lit(w), Emit("?"))
    requires Silent(s) && Starts(s.src, s.cur, w)
    ensures Scans(N(n), s, w, c, Said(c, "?"))
  {
    hide Rule, RunPat, RunSym, Scans, ScansPat, Starts, Said;
    LitReads(w, s, c);
    ThenEmits(Lit(w), "?", s, w, c, c);
    FirstReads(n, Two(Lit(w), Emit("?")), s, w, c, Said(c, "?"));
  }

  lemma SubReads(sub: Sub, s: St, c: Ctx)
    requires Silent(s) && GoodSub(sub) && Starts(s.src, s.cur, MangledSub(sub))
    ensures Scans(N(Substitution), s, MangledSub(sub), c, SaidSub(sub, c))
  {
    hide RunPat, RunSym, Scans, ScansPat, SaidSubstitution, Said, Starts, Digits;
    match sub
    case Standard(ch) => StandardReads(ch, s, c);
    case Seen(n) =>
      if n == 0 {
        assert "S" + Id(0, 36) == "S_";
        FirstOfSequence(Substitution, "S_", s, c);
      } else {
        NumberedReads("S", "S_", Base36, n, s, c);
        var p := Four(Lit("S"), Numeral(Base36), Lit("_"), Emit("?"));
        SecondReads(Substitution, p, s, MangledSub(sub), c, Said(c, "?"));
      }
  }

  lemma ParamReads(n: nat, s: St, c: Ctx)
    requires Silent(s) && Starts(s.src, s.cur, "T" + Id(n, 10))
    ensures Scans(N(TemplateParam), s, "T" + Id(n, 10), c, Said(c, "?"))
  {
    hide RunPat, RunSym, Scans, ScansPat, Said, Starts, Digits;
    var w := "T" + Id(n, 10);
    if n == 0 {
      assert w == "T_";
      FirstOfSequence(TemplateParam, "T_", s, c);
    } else {
      NumberedReads("T", "T_", Decimal, n, s, c);
      var p := Four(Lit("T"), NUMBER, Lit("_"), Emit("?"));
      SecondReads(TemplateParam, p, s, w, c, Said(c, "?"));
    }
  }

  // ---------- components ----------

  lemma PeekIs(s: St, w: string)
    requires Ok(s) && Starts(s.src, s.cur, w) && w != ""
    ensures Peek(s) == w[0]
  {
    FirstChar(s.src, s.cur, w);
  }

  lemma FirstChar(src: string, at: nat, w: string)
    requires Starts(src, at, w) && w != ""
    ensures CharAt(src, at) == w[0]
  {
    assert src[at..at + |w|][0] == src[at];
  }

  lemma OperatorNameReads(a: char, b: char, s: St, c: Ctx)
    requires Silent(s) && GoodPart(Operator(a, b)) && Starts(s.src, s.cur, [a, b])
    ensures Scans(N(OperatorName), s, [a, b], c, SaidPart(Operator(a, b), c))
  {
    hide RunPat, RunSym, Scans, ScansPat, Find, Entry, SaidOperator;
    var d := SaidPart(Operator(a, b), c);
    PeekIs(s, [a, b]);
    LitFails("cv", Two(Emit("operator "), Nested(N(Type))), s);
    LitFails("v", Two(Class("0123456789"), N(SourceName)), s);
    hide Starts;
    OperatorReads(a, b, s, c);
    OneReads(OperatorTable, s, [a, b], c, d);
    ThirdReads(OperatorName, One(OperatorTable), s, [a, b], c, d);
  }

  lemma ConstructorReads(kind: char, s: St, c: Ctx)
    requires Silent(s) && kind in "123" && Starts(s.src, s.cur, "C" + [kind])
    ensures Scans(N(CtorDtorName), s, "C" + [kind], c, SaidPart(Constructor(kind), c))
  {
    hide RunPat, RunSym, Scans, ScansPat, Starts, Said;
    StartsSplits(s.src, s.cur, "C", [kind]);
    LitReads("C", s, c);
    var t := Advance(Lit("C"), s, "C", c, c);
    ClassReads("123", kind, t, c);
    var u := Advance(Class("123"), t, [kind], c, c);
    EmitPreviousReads(u, c);
    var d := Said(c, c.previous);
    TwoRead(Class("123"), EmitPrevious, t, [kind], "", c, c, d);
    assert [kind] + "" == [kind];
    ThenReads(Lit("C"), Two(Class("123"), EmitPrevious), s, "C", [kind], c, c, d);
    FirstReads(CtorDtorName, Three(Lit("C"), Class("123"), EmitPrevious), s, "C" + [kind], c, d);
  }

  lemma DestructorReads(kind: char, s: St, c: Ctx)
    requires Silent(s) && kind in "012" && Starts(s.src, s.cur, "D" + [kind])
    ensures Scans(N(CtorDtorName), s, "D" + [kind], c, SaidPart(Destructor(kind), c))
  {
    hide Ok, RunPat, RunSym, Scans, ScansPat, Starts, Said;
    Within(s);
    var p, w := Four(Lit("D"), Class("012"), Emit("~"), EmitPrevious), "D" + [kind];
    StartsSplits(s.src, s.cur, "D", [kind]);
    PeekIs(s, "D");
    LitReads("D", s, c);
    var t := Advance(Lit("D"), s, "D", c, c);
    ClassReads("012", kind, t, c);
    var u := Advance(Class("012"), t, [kind], c, c);
    EmitReads("~", u, c);
    var b := Said(c, "~");
    var v := Advance(Emit("~"), u, "", c, b);
    EmitPreviousReads(v, b);
    var d := Said(b, b.previous);
    TwoRead(Emit("~"), EmitPrevious, u, "", "", c, b, d);
    ThenReads(Class("012"), Two(Emit("~"), EmitPrevious), t, [kind], "" + "", c, c, d);
    assert [kind] + ("" + "") == [kind];
    ThenReads(Lit("D"), p.tail, s, "D", [kind], c, c, d);
    Unread(Lit("C"), Two(Class("123"), EmitPrevious), s);
    SecondReads(CtorDtorName, p, s, w, c, d);
  }

  predicate BeginsPart(p: Part, ch: char) {
    match p
    case Identifier(_) => IsDigit(ch)
    case Internal(_) => ch == 'L'
    case Operator(_, _) => IsLower(ch)
    case Cast(_) => ch == 'c'
    case Constructor(_) => ch == 'C'
    case Destructor(_) => ch == 'D'
    case Shortened(_) => ch == 'S'
    case Parameter(_) => ch == 'T'
  }

  lemma DigitsBegin(n: nat)
    ensures Digits(n, 10) != "" && IsDigit(Digits(n, 10)[0])
  {
    DigitsAreDigits(n, Decimal);
    assert Digit(Decimal, Digits(n, 10)[0]) >= 0;
    hide Digits;
  }

  lemma PartBegins(p: Part)
    requires GoodPart(p)
    ensures MangledPart(p) != "" && BeginsPart(p, MangledPart(p)[0])
  {
    hide Digits, IsDigit;
    if p.Identifier? { DigitsBegin(|p.w|); }
  }

  /** The nonterminal of a component that has a name of its own. */
  function NameOf(p: Part): Nonterminal {
    if p.Identifier? then SourceName
    else if p.Internal? then LocalSourceName
    else if IsSpecial(p) then CtorDtorName
    else OperatorName
  }

  lemma OperatorIsUnqualified(s: St, w: string, c: Ctx, d: Ctx)
    requires Scans(N(OperatorName), s, w, c, d)
    ensures Scans(N(UnqualifiedName), s, w, c, d)
  {
    hide RunSym, Scans, ScansPat;
    OneReads(N(OperatorName), s, w, c, d);
    FirstReads(UnqualifiedName, One(N(OperatorName)), s, w, c, d);
  }

  lemma SpecialIsUnqualified(s: St, w: string, c: Ctx, d: Ctx)
    requires Scans(N(CtorDtorName), s, w, c, d) && Ok(s) && !IsLower(Peek(s))
    ensures Scans(N(UnqualifiedName), s, w, c, d)
  {
    hide RunSym, RunPat, Scans, ScansPat, Ok;
    OneReads(N(CtorDtorName), s, w, c, d);
    NoSuch(OperatorName, Done, s);
    SecondReads(UnqualifiedName, One(N(CtorDtorName)), s, w, c, d);
  }

  lemma SourceIsUnqualified(s: St, w: string, c: Ctx, d: Ctx)
    requires Scans(N(SourceName), s, w, c, d) && Ok(s) && IsDigit(Peek(s))
    ensures Scans(N(UnqualifiedName), s, w, c, d)
  {
    hide RunSym, RunPat, Scans, ScansPat, Ok;
    OneReads(N(SourceName), s, w, c, d);
    NoSuch(OperatorName, Done, s);
    NoSuch(CtorDtorName, Done, s);
    ThirdReads(UnqualifiedName, One(N(SourceName)), s, w, c, d);
  }

  lemma InternalIsUnqualified(s: St, w: string, c: Ctx, d: Ctx)
    requires Scans(N(LocalSourceName), s, w, c, d) && Ok(s) && Peek(s) == 'L'
    ensures Scans(N(UnqualifiedName), s, w, c, d)
  {
    hide RunSym, RunPat, Scans, ScansPat, Ok;
    OneReads(N(LocalSourceName), s, w, c, d);
    NoSuch(OperatorName, Done, s);
    NoSuch(CtorDtorName, Done, s);
    NoSuch(SourceName, Done, s);
    FourthReads(UnqualifiedName, One(N(LocalSourceName)), s, w, c, d);
  }

  /** A name with internal linkage; no discriminator follows. */
  lemma InternalReads(w: string, s: St, c: Ctx)
    requires Silent(s) && IsName(w) && Starts(s.src, s.cur, "L" + Counted(w)) && Next(s, "L" + Counted(w)) != '_'
    ensures Scans(N(LocalSourceName), s, "L" + Counted(w), c, Said(c, IdentifierText(w)))
  {
    hide RunSym, RunPat, Scans, ScansPat, Starts, Said, IsName, IdentifierText, Counted;
    var v, d, o := Counted(w), Said(c, IdentifierText(w)), Opt(N(Discriminator));
    StartsSplits(s.src, s.cur, "L", v);
    LitReads("L", s, c);
    var t := LitState("L", s);
    SourceNameReads(w, t, c);
    var u := Advance(N(SourceName), t, v, c, d);
    NoOption(N(Discriminator), u, d);
    TwoRead(N(SourceName), o, t, v, "", c, d, d);
    assert v + "" == v;
    ThenReads(Lit("L"), Two(N(SourceName), o), s, "L", v, c, c, d);
    FirstReads(LocalSourceName, Three(Lit("L"), N(SourceName), o), s, "L" + v, c, d);
  }

  lemma UnqualifiedReads(p: Part, s: St, c: Ctx)
    requires Silent(s) && GoodPart(p) && !p.Shortened? && !p.Parameter?
    requires Scans(N(NameOf(p)), s, MangledPart(p), c, SaidPart(p, c))
    ensures BeginsPart(p, Peek(s))
    ensures Scans(N(UnqualifiedName), s, MangledPart(p), c, SaidPart(p, c))
    ensures Scans(N(UnscopedName), s, MangledPart(p), c, SaidPart(p, c))
  {
    var w, d := MangledPart(p), SaidPart(p, c);
    PartBegins(p);
    ScansStarts(N(NameOf(p)), s, w, c, d);
    PeekIs(s, w);
    hide RunSym, Scans, ScansPat, MangledPart, SaidPart, GoodPart, Starts, Ok;
    match p {
      case Identifier(_) => SourceIsUnqualified(s, w, c, d);
      case Internal(_) => InternalIsUnqualified(s, w, c, d);
      case Constructor(_) => SpecialIsUnqualified(s, w, c, d);
      case Destructor(_) => SpecialIsUnqualified(s, w, c, d);
      case _ => OperatorIsUnqualified(s, w, c, d);
    }
    UnqualifiedIsUnscoped(s, w, c, d);
  }

  lemma UnqualifiedIsUnscoped(s: St, w: string, c: Ctx, d: Ctx)
    requires Scans(N(UnqualifiedName), s, w, c, d)
    ensures Scans(N(UnscopedName), s, w, c, d)
  {
    hide RunSym, Scans, ScansPat;
    OneReads(N(UnqualifiedName), s, w, c, d);
    FirstReads(UnscopedName, One(N(UnqualifiedName)), s, w, c, d);
  }

  lemma ScansStarts(y: Sym, s: St, w: string, c: Ctx, d: Ctx)
    requires Scans(y, s, w, c, d)
    ensures Silent(s) && Starts(s.src, s.cur, w)
  {
  }

  lemma ItemReads(p: Part, s: St, c: Ctx)
    requires Silent(s) && GoodPart(p) && Starts(s.src, s.cur, MangledPart(p))
    requires !p.Shortened? && !p.Parameter? ==> Scans(N(UnscopedName), s, MangledPart(p), c, SaidPart(p, c))
    ensures Scans(N(PrefixItem), s, MangledPart(p), c, SaidPart(p, c))
  {
    hide RunSym, Scans, Starts, Ok, SaidSub, GoodSub, GoodTy, Said, SaidOperator, SaidTy, Id, Counted;
    hide IdentifierText, Find;
    PartBegins(p);
    PeekIs(s, MangledPart(p));
    match p
    case Parameter(n) => ParamItem(n, s, c);
    case Shortened(sub) => SubItem(sub, s, c);
    case _ => NamedItem(s, MangledPart(p), c, SaidPart(p, c));
  }

  lemma ParamItem(n: nat, s: St, c: Ctx)
    requires Silent(s) && Starts(s.src, s.cur, "T" + Id(n, 10))
    ensures Scans(N(PrefixItem), s, "T" + Id(n, 10), c, Said(c, "?"))
  {
    hide RunSym, Scans, ScansPat, Starts, Said, Id;
    var w, d := "T" + Id(n, 10), Said(c, "?");
    ParamReads(n, s, c);
    OneReads(N(TemplateParam), s, w, c, d);
    FirstReads(PrefixItem, One(N(TemplateParam)), s, w, c, d);
  }

  lemma SubItem(sub: Sub, s: St, c: Ctx)
    requires Silent(s) && GoodSub(sub) && Starts(s.src, s.cur, MangledSub(sub)) && Peek(s) == 'S'
    ensures Scans(N(PrefixItem), s, MangledSub(sub), c, SaidSub(sub, c))
  {
    hide RunSym, RunPat, Scans, ScansPat, Starts, SaidSub, MangledSub, GoodSub, Ok;
    var w, d := MangledSub(sub), SaidSub(sub, c);
    SubReads(sub, s, c);
    OneReads(N(Substitution), s, w, c, d);
    NoSuch(TemplateParam, Done, s);
    SecondReads(PrefixItem, One(N(Substitution)), s, w, c, d);
  }

  lemma NamedItem(s: St, w: string, c: Ctx, d: Ctx)
    requires Scans(N(UnscopedName), s, w, c, d) && Ok(s) && Peek(s) != 'T' && Peek(s) != 'S'
    ensures Scans(N(PrefixItem), s, w, c, d)
  {
    hide RunSym, RunPat, Scans, ScansPat, Ok;
    OneReads(N(UnscopedName), s, w, c, d);
    NoSuch(TemplateParam, Done, s);
    NoSuch(Substitution, Done, s);
    ThirdReads(PrefixItem, One(N(UnscopedName)), s, w, c, d);
  }

  // ---------- unscoped names ----------

  /** In the namespace std. */
  lemma StdReads(s: St, w: string, c: Ctx, d: Ctx)
    requires Silent(s) && Starts(s.src, s.cur, "St" + w)
    requires var t := s.(cur := s.cur + 2); Ok(t) && Scans(N(UnqualifiedName), t, w, Said(c, "std::"), d)
    ensures Scans(N(UnscopedName), s, "St" + w, c, d)
  {
    hide RunSym, RunPat, Scans, ScansPat, Starts, Said;
    StartsSplits(s.src, s.cur, "St", w);
    PeekIs(s, "St");
    LitReads("St", s, c);
    var t := LitState("St", s);
    EmitReads("std::", t, c);
    var b := Said(c, "std::");
    EmitState("std::", t);
    TwoRead(Emit("std::"), N(UnqualifiedName), t, "", w, c, b, d);
    assert "" + w == w;
    ThenReads(Lit("St"), Two(Emit("std::"), N(UnqualifiedName)), s, "St", w, c, c, d);
    NoSuch(UnqualifiedName, Done, s);
    SecondReads(UnscopedName, Three(Lit("St"), Emit("std::"), N(UnqualifiedName)), s, "St" + w, c, d);
  }

  lemma LitState(w: string, s: St) returns (t: St)
    requires Silent(s) && Starts(s.src, s.cur, w)
    ensures RunSym(Lit(w), s).Match? && t == RunSym(Lit(w), s).st == s.(cur := s.cur + |w|) && Silent(t)
  {
    TerminalUnfolds(Lit(w), s);
    t := s.(cur := s.cur + |w|);
    hide RunSym;
  }

  lemma EmitState(w: string, s: St)
    requires Silent(s)
    ensures RunSym(Emit(w), s).Match? && RunSym(Emit(w), s).st == s
  {
    TerminalUnfolds(Emit(w), s);
    hide RunSym;
  }

  predicate Calm(ch: char) { ch != 'I' && ch != '_' }

  /** An unscoped name without arguments: the template name comes to nothing. */
  lemma UnscopedIsName(s: St, w: string, c: Ctx, d: Ctx)
    requires Silent(s) && Scans(N(UnscopedName), s, w, c, d) && Peek(s) != 'N' && Peek(s) != 'Z' && Next(s, w) != 'I'
    ensures Scans(N(Name), s, w, c, d)
  {
    hide RunSym, RunPat, Scans, ScansPat, Ok;
    OneReads(N(UnscopedName), s, w, c, d);
    FirstReads(UnscopedTemplateName, One(N(UnscopedName)), s, w, c, d);
    var t := Advance(N(UnscopedTemplateName), s, w, c, d);
    SecondFails(N(UnscopedTemplateName), N(TemplateArgs), Done, s, w, c, d);
    NoSuch(NestedName, Done, s);
    NoSuch(LocalName, Done, s);
    FourthReads(Name, One(N(UnscopedName)), s, w, c, d);
  }

  /** A template name with its arguments. */
  lemma InstanceIsName(s: St, v: string, w: string, c: Ctx, b: Ctx, d: Ctx)
    requires Silent(s) && Scans(N(UnscopedTemplateName), s, v, c, b) && Peek(s) != 'N' && Peek(s) != 'Z'
    requires Scans(N(TemplateArgs), RunSym(N(UnscopedTemplateName), s).st, w, b, d)
    ensures Scans(N(Name), s, v + w, c, d)
  {
    hide RunSym, RunPat, Scans, ScansPat, Ok;
    TwoRead(N(UnscopedTemplateName), N(TemplateArgs), s, v, w, c, b, d);
    NoSuch(NestedName, Done, s);
    NoSuch(LocalName, Done, s);
    ThirdReads(Name, Two(N(UnscopedTemplateName), N(TemplateArgs)), s, v + w, c, d);
  }

  /** No unscoped name is an abbreviation. */
  lemma NoUnscopedName(sub: Sub, s: St)
    requires Silent(s) && GoodSub(sub) && sub != Standard('t') && Starts(s.src, s.cur, MangledSub(sub))
    ensures RunSym(N(UnscopedName), s).NoMatch? && Peek(s) == 'S'
  {
    hide RunSym, RunPat, Digits, GoodSub;
    SubIsNotStd(sub, s);
    PeekIs(s, MangledSub(sub));
    NoSuch(UnqualifiedName, Done, s);
    LitFails("St", Two(Emit("std::"), N(UnqualifiedName)), s);
    TwoFail(UnscopedName, One(N(UnqualifiedName)), Three(Lit("St"), Emit("std::"), N(UnqualifiedName)), s);
  }

  lemma SubIsNotStd(sub: Sub, s: St)
    requires Silent(s) && sub != Standard('t') && Starts(s.src, s.cur, MangledSub(sub))
    ensures !Starts(s.src, s.cur, "St")
  {
    hide Digits, Digit;
    var w := MangledSub(sub);
    if sub.Seen? && sub.n > 0 {
      DigitsAreDigits(sub.n - 1, Base36);
      assert w[1] == Digits(sub.n - 1, 36)[0];
      LowerIsNoDigit();
    }
    SecondChar(s, w);
    assert w[..2][1] == w[1] != 't';
  }

  lemma LowerIsNoDigit()
    ensures Digit(Base36, 't') < 0
  {
  }

  lemma SubIsTemplateName(sub: Sub, s: St, c: Ctx)
    requires Silent(s) && GoodSub(sub) && sub != Standard('t') && Starts(s.src, s.cur, MangledSub(sub))
    ensures Scans(N(UnscopedTemplateName), s, MangledSub(sub), c, SaidSub(sub, c))
  {
    hide RunSym, RunPat, Scans, ScansPat, Starts, SaidSub, MangledSub, GoodSub;
    var w, d := MangledSub(sub), SaidSub(sub, c);
    NoUnscopedName(sub, s);
    OneFails(N(UnscopedName), s);
    SubReads(sub, s, c);
    OneReads(N(Substitution), s, w, c, d);
    SecondReads(UnscopedTemplateName, One(N(Substitution)), s, w, c, d);
  }

  /** Nor any name. */
  lemma NoName(sub: Sub, s: St, c: Ctx)
    requires Silent(s) && GoodSub(sub) && sub != Standard('t') && Starts(s.src, s.cur, MangledSub(sub))
    requires Next(s, MangledSub(sub)) != 'I'
    ensures RunSym(N(Name), s).NoMatch?
  {
    hide RunSym, RunPat, Scans, ScansPat, Starts, SaidSub, MangledSub, GoodSub;
    var w, d := MangledSub(sub), SaidSub(sub, c);
    NoUnscopedName(sub, s);
    SubIsTemplateName(sub, s, c);
    var t := Advance(N(UnscopedTemplateName), s, w, c, d);
    SecondFails(N(UnscopedTemplateName), N(TemplateArgs), Done, s, w, c, d);
    OneFails(N(UnscopedName), s);
    NoScopedName(s);
  }

  lemma NoScopedName(s: St)
    requires Silent(s) && Peek(s) != 'N' && Peek(s) != 'Z' && RunPat(One(N(UnscopedName)), s).NoMatch?
    requires RunPat(Two(N(UnscopedTemplateName), N(TemplateArgs)), s).NoMatch?
    ensures RunSym(N(Name), s).NoMatch?
  {
    hide Ok, RunSym, RunPat;
    NoSuch(NestedName, Done, s);
    NoSuch(LocalName, Done, s);
    FourFail(Name, s);
  }

  lemma NoClassName(s: St)
    requires Silent(s) && RunSym(N(Name), s).NoMatch?
    ensures RunPat(One(N(ClassEnumType)), s).NoMatch?
  {
    hide RunSym, RunPat, RunNt;
    NtSym(ClassEnumType, s);
    OneUnfolds(ClassEnumType, N(Name), s);
    OneFails(N(ClassEnumType), s);
  }

  // ---------- types ----------

  lemma TypeTail(s: St, w: string, c: Ctx, d: Ctx)
    requires ScansFrom(Type, SimpleTypes(), s, w, c, d) && Silent(s)
    requires var ch := Peek(s); ch != 'r' && ch != 'V' && ch != 'K' && ch !in "PRCG" && ch != 'U'
    ensures Scans(N(Type), s, w, c, d)
  {
    hide RunSym, RunPat, RunAlts, Scans, ScansFrom, Ok, Descends;
    NoLeftRecursion(Type);
    var p, q, r := Two(CVQualifiers, N(Type)), Two(Class("PRCG"), N(Type)), Three(Lit("U"), N(SourceName), N(Type));
    Unread(CVQualifiers, One(N(Type)), s);
    Unread(Class("PRCG"), One(N(Type)), s);
    Unread(Lit("U"), Two(N(SourceName), N(Type)), s);
    FourthFrom(Type, p, q, r, SimpleTypes(), s, w, c, d);
    RuleReads(Type, s, w, c, d);
  }

  lemma CompoundTail(s: St, w: string, c: Ctx, d: Ctx)
    requires ScansFrom(Type, CompoundTypes(), s, w, c, d) && Silent(s) && Peek(s) in "AMST"
    requires RunPat(One(N(ClassEnumType)), s).NoMatch?
    ensures Scans(N(Type), s, w, c, d)
  {
    hide RunSym, RunPat, RunAlts, Scans, ScansFrom, Ok, Descends;
    TypesDescend();
    NoSuch(BuiltinType, Done, s);
    NoSuch(FunctionType, Done, s);
    FourthFrom(Type, One(N(BuiltinType)), One(N(FunctionType)), One(N(ClassEnumType)), CompoundTypes(), s, w, c, d);
    TypeTail(s, w, c, d);
  }

  lemma ParamTail(s: St, w: string, c: Ctx, d: Ctx)
    requires ScansFrom(Type, TemplateTypes(), s, w, c, d) && Silent(s) && Peek(s) == 'T'
    ensures Scans(N(Type), s, w, c, d)
  {
    hide RunSym, RunPat, RunAlts, Scans, ScansFrom, Ok, Descends;
    TypesDescend();
    NoSuch(ClassEnumType, Done, s);
    NoSuch(ArrayType, Done, s);
    NoSuch(PointerToMemberType, Done, s);
    NoSuch(Substitution, Done, s);
    FourthFrom(Type, One(N(ArrayType)), One(N(PointerToMemberType)), One(N(Substitution)), TemplateTypes(), s, w, c, d);
    CompoundTail(s, w, c, d);
  }

  lemma RestDescends(alts: Alts, bound: nat)
    requires Descends(alts, bound) && alts.Or?
    ensures Descends(alts.rest, bound)
  {
  }

  /** The alternatives of a type from a simple one on. */
  lemma TypesDescend()
    ensures Descends(SimpleTypes(), Level(Type)) && Descends(CompoundTypes(), Level(Type))
    ensures Descends(TemplateTypes(), Level(Type))
  {
    hide Descends;
    NoLeftRecursion(Type);
    ThreeFurther(Rule(Type), Level(Type));
    ThreeFurther(SimpleTypes(), Level(Type));
    ThreeFurther(CompoundTypes(), Level(Type));
  }

  lemma ThreeFurther(alts: Alts, bound: nat)
    requires Descends(alts, bound) && alts.Or? && alts.rest.Or? && alts.rest.rest.Or?
    ensures Descends(alts.rest.rest.rest, bound)
  {
    hide Descends;
    RestDescends(alts, bound);
    RestDescends(alts.rest, bound);
    RestDescends(alts.rest.rest, bound);
  }

  lemma BuiltinIsType(ch: char, s: St, c: Ctx)
    requires Silent(s) && GoodTy(Builtin(ch)) && Starts(s.src, s.cur, [ch])
    ensures Scans(N(Type), s, [ch], c, SaidTy(Builtin(ch), c))
  {
    hide Descends, RunSym, RunPat, RunAlts, Scans, ScansPat, ScansFrom, Ok, Find, Entry, Said;
    var d := SaidTy(Builtin(ch), c);
    BuiltinLetters(ch);
    PeekIs(s, [ch]);
    BuiltinReads(ch, s, c);
    OneReads(BuiltinTable, s, [ch], c, d);
    FirstReads(BuiltinType, One(BuiltinTable), s, [ch], c, d);
    OneReads(N(BuiltinType), s, [ch], c, d);
    TypesDescend();
    HereReads(Type, SimpleTypes(), One(N(BuiltinType)), s, [ch], c, d);
    TypeTail(s, [ch], c, d);
  }

  lemma DerivedIsType(ch: char, s: St, w: string, c: Ctx, d: Ctx)
    requires Silent(s) && ch in "PRCG" && Starts(s.src, s.cur, [ch] + w)
    requires var t := s.(cur := s.cur + 1); Ok(t) && Scans(N(Type), t, w, c, d)
    ensures Scans(N(Type), s, [ch] + w, c, d)
  {
    hide RunSym, RunPat, Scans, ScansPat, Starts;
    StartsSplits(s.src, s.cur, [ch], w);
    PeekIs(s, [ch]);
    ClassReads("PRCG", ch, s, c);
    ClassState("PRCG", ch, s);
    TwoRead(Class("PRCG"), N(Type), s, [ch], w, c, c, d);
    Unread(CVQualifiers, One(N(Type)), s);
    SecondReads(Type, Two(Class("PRCG"), N(Type)), s, [ch] + w, c, d);
  }

  lemma ClassState(cs: string, ch: char, s: St)
    requires Silent(s) && ch in cs && Starts(s.src, s.cur, [ch])
    ensures RunSym(Class(cs), s).Match? && RunSym(Class(cs), s).st == s.(cur := s.cur + 1)
  {
    PeekIs(s, [ch]);
    TerminalUnfolds(Class(cs), s);
    hide RunSym;
  }

  lemma QualifiersRead(r: bool, v: bool, k: bool, s: St, c: Ctx)
    requires Silent(s) && (r || v || k) && Starts(s.src, s.cur, Qualifiers(r, v, k))
    requires var ch := Next(s, Qualifiers(r, v, k)); ch != 'r' && ch != 'V' && ch != 'K'
    ensures Scans(CVQualifiers, s, Qualifiers(r, v, k), c, c)
    ensures var t := s.(cur := s.cur + |Qualifiers(r, v, k)|);
            RunSym(CVQualifiers, s).Match? && RunSym(CVQualifiers, s).st == t && Silent(t)
            && !RunSym(CVQualifiers, s).tree.Eps?
  {
    hide RunSym, Skip;
    LettersOfQualifiers(r, v, k, s.src, s.cur);
    TerminalUnfolds(CVQualifiers, s);
    SkipIs(s, 'r', r);
    var t := Skip(s, 'r');
    SkipIs(t, 'V', v);
    var u := Skip(t, 'V');
    SkipIs(u, 'K', k);
    hide Starts;
  }

  /** Which letters stand where. */
  lemma LettersOfQualifiers(r: bool, v: bool, k: bool, src: string, at: nat)
    requires Starts(src, at, Qualifiers(r, v, k))
    requires var ch := CharAt(src, at + |Qualifiers(r, v, k)|); ch != 'r' && ch != 'V' && ch != 'K'
    ensures var second := at + if r then 1 else 0; var third := second + if v then 1 else 0;
            && |Qualifiers(r, v, k)| == third + (if k then 1 else 0) - at
            && (r <==> CharAt(src, at) == 'r') && (v <==> CharAt(src, second) == 'V')
            && (k <==> CharAt(src, third) == 'K')
  {
    hide Starts;
    var second := at + if r then 1 else 0;
    var third := second + if v then 1 else 0;
    assert Qualifiers(r, v, k) == If(r, "r") + Qualifiers(false, v, k);
    assert Qualifiers(false, v, k) == If(v, "V") + Qualifiers(false, false, k);
    assert Qualifiers(false, false, k) == If(k, "K");
    StartsSplits(src, at, If(r, "r"), Qualifiers(false, v, k));
    StartsSplits(src, second, If(v, "V"), Qualifiers(false, false, k));
    Letter(src, at, 'r', r);
    Letter(src, second, 'V', v);
    Letter(src, third, 'K', k);
  }

  lemma Letter(src: string, at: nat, ch: char, there: bool)
    requires Starts(src, at, If(there, [ch]))
    ensures there ==> CharAt(src, at) == ch
  {
    if there { FirstChar(src, at, [ch]); }
  }

  lemma SkipIs(s: St, ch: char, there: bool)
    requires Ok(s) && (there <==> Peek(s) == ch) && ch != '\0'
    ensures Skip(s, ch) == if there then s.(cur := s.cur + 1) else s
  {
    assert s.cur < |s.src| ==> s.src[s.cur..s.cur + 1] == [s.src[s.cur]];
  }

  /** The letters of class names. */
  predicate BeginsClass(ch: char) { IsDigit(ch) || ch == 'N' || ch == 'Z' || ch == 'S' || ch == 'L' }

  lemma ClassIsType(s: St, w: string, c: Ctx, d: Ctx)
    requires Silent(s) && Scans(N(Name), s, w, c, d)
    requires BeginsClass(Peek(s))
    ensures Scans(N(Type), s, w, c, d)
  {
    hide RunSym, RunPat, RunAlts, Scans, ScansPat, ScansFrom, Ok, Descends;
    TypesDescend();
    NameIsClass(s, w, c, d);
    NoSuch(BuiltinType, Done, s);
    NoSuch(FunctionType, Done, s);
    ThirdFrom(Type, One(N(BuiltinType)), One(N(FunctionType)), One(N(ClassEnumType)), CompoundTypes(), s, w, c, d);
    TypeTail(s, w, c, d);
  }

  lemma NameIsClass(s: St, w: string, c: Ctx, d: Ctx)
    requires Scans(N(Name), s, w, c, d)
    ensures ScansPat(One(N(ClassEnumType)), s, w, c, d)
  {
    hide RunSym, Scans, ScansPat;
    OneReads(N(Name), s, w, c, d);
    FirstReads(ClassEnumType, One(N(Name)), s, w, c, d);
    OneReads(N(ClassEnumType), s, w, c, d);
  }

  lemma SignatureIsType(s: St, w: string, c: Ctx, d: Ctx)
    requires Silent(s) && Scans(N(FunctionType), s, w, c, d) && Peek(s) == 'F'
    ensures Scans(N(Type), s, w, c, d)
  {
    hide RunSym, RunPat, RunAlts, Scans, ScansPat, ScansFrom, Ok, Descends;
    TypesDescend();
    OneReads(N(FunctionType), s, w, c, d);
    NoSuch(BuiltinType, Done, s);
    SecondFrom(Type, One(N(BuiltinType)), One(N(FunctionType)), Or(One(N(ClassEnumType)), CompoundTypes()), s, w, c, d);
    TypeTail(s, w, c, d);
  }

  lemma ArrayIsType(s: St, w: string, c: Ctx, d: Ctx)
    requires Silent(s) && Scans(N(ArrayType), s, w, c, d) && Peek(s) == 'A'
    ensures Scans(N(Type), s, w, c, d)
  {
    hide RunSym, RunPat, RunAlts, Scans, ScansPat, ScansFrom, Ok, Descends;
    TypesDescend();
    OneReads(N(ArrayType), s, w, c, d);
    HereReads(Type, CompoundTypes(), One(N(ArrayType)), s, w, c, d);
    NoSuch(ClassEnumType, Done, s);
    CompoundTail(s, w, c, d);
  }

  lemma MemberIsType(s: St, w: string, c: Ctx, d: Ctx)
    requires Silent(s) && Scans(N(PointerToMemberType), s, w, c, d) && Peek(s) == 'M'
    ensures Scans(N(Type), s, w, c, d)
  {
    hide RunSym, RunPat, RunAlts, Scans, ScansPat, ScansFrom, Ok, Descends;
    TypesDescend();
    OneReads(N(PointerToMemberType), s, w, c, d);
    NoSuch(ArrayType, Done, s);
    SecondFrom(Type, One(N(ArrayType)), One(N(PointerToMemberType)), Or(One(N(Substitution)), TemplateTypes()),
               s, w, c, d);
    NoSuch(ClassEnumType, Done, s);
    CompoundTail(s, w, c, d);
  }

  lemma ShortIsType(sub: Sub, s: St, c: Ctx)
    requires Silent(s) && GoodTy(Short(sub)) && Starts(s.src, s.cur, MangledSub(sub)) && Next(s, MangledSub(sub)) != 'I'
    ensures Scans(N(Type), s, MangledSub(sub), c, SaidSub(sub, c))
  {
    hide RunSym, RunPat, RunNt, Scans, ScansPat, Starts, SaidSub, MangledSub, GoodSub;
    NoName(sub, s, c);
    NoClassName(s);
    NoUnscopedName(sub, s);
    SubReads(sub, s, c);
    SubstitutionIsType(s, MangledSub(sub), c, SaidSub(sub, c));
  }

  lemma SubstitutionIsType(s: St, w: string, c: Ctx, d: Ctx)
    requires Silent(s) && Scans(N(Substitution), s, w, c, d) && Peek(s) == 'S'
    requires RunPat(One(N(ClassEnumType)), s).NoMatch?
    ensures Scans(N(Type), s, w, c, d)
  {
    hide RunSym, RunPat, RunAlts, Scans, ScansPat, ScansFrom, Ok, Descends;
    TypesDescend();
    OneReads(N(Substitution), s, w, c, d);
    NoSuch(ArrayType, Done, s);
    NoSuch(PointerToMemberType, Done, s);
    ThirdFrom(Type, One(N(ArrayType)), One(N(PointerToMemberType)), One(N(Substitution)), TemplateTypes(), s, w, c, d);
    CompoundTail(s, w, c, d);
  }

  lemma ParamIsType(n: nat, s: St, c: Ctx)
    requires Silent(s) && Starts(s.src, s.cur, "T" + Id(n, 10)) && Next(s, "T" + Id(n, 10)) != 'I'
    ensures Scans(N(Type), s, "T" + Id(n, 10), c, Said(c, "?"))
  {
    hide Ok, RunSym, RunPat, Scans, ScansPat, Id, Starts, Said;
    Within(s);
    var w, d := "T" + Id(n, 10), Said(c, "?");
    PeekIs(s, w);
    ParamReads(n, s, c);
    OneReads(N(TemplateParam), s, w, c, d);
    FirstReads(TemplateTemplateParam, One(N(TemplateParam)), s, w, c, d);
    var t := Advance(N(TemplateTemplateParam), s, w, c, d);
    SecondFails(N(TemplateTemplateParam), N(TemplateArgs), Done, s, w, c, d);
    ParamAlone(s, w, c, d);
  }

  lemma ParamAlone(s: St, w: string, c: Ctx, d: Ctx)
    requires Silent(s) && Peek(s) == 'T' && ScansPat(One(N(TemplateParam)), s, w, c, d)
    requires RunPat(Two(N(TemplateTemplateParam), N(TemplateArgs)), s).NoMatch?
    ensures Scans(N(Type), s, w, c, d)
  {
    hide RunPat, Scans, ScansPat, ScansFrom, Descends;
    TypesDescend();
    SecondFrom(Type, Two(N(TemplateTemplateParam), N(TemplateArgs)), One(N(TemplateParam)), Fail, s, w, c, d);
    ParamTail(s, w, c, d);
  }

  lemma ParamOfIsType(n: nat, s: St, v: string, c: Ctx, d: Ctx)
    requires Silent(s) && Starts(s.src, s.cur, "T" + Id(n, 10))
    requires var b := Said(c, "?");
             Scans(N(TemplateTemplateParam), s, "T" + Id(n, 10), c, b) ==>
               Scans(N(TemplateArgs), RunSym(N(TemplateTemplateParam), s).st, v, b, d)
    ensures Scans(N(Type), s, "T" + Id(n, 10) + v, c, d)
  {
    hide RunSym, RunPat, Scans, ScansPat, ScansFrom, Descends, Id, Starts, Said;
    var w, b := "T" + Id(n, 10), Said(c, "?");
    PeekIs(s, w);
    ParamReads(n, s, c);
    OneReads(N(TemplateParam), s, w, c, b);
    FirstReads(TemplateTemplateParam, One(N(TemplateParam)), s, w, c, b);
    TwoRead(N(TemplateTemplateParam), N(TemplateArgs), s, w, v, c, b, d);
    TypesDescend();
    HereReads(Type, TemplateTypes(), Two(N(TemplateTemplateParam), N(TemplateArgs)), s, w + v, c, d);
    ParamTail(s, w + v, c, d);
  }

  // ---------- lists of types ----------

  lemma StarStops(n: Nonterminal, s: St)
    requires Silent(s) && !Begins(n, Peek(s))
    ensures Past(s, RunStar(n, s), "")
  {
    hide RunNt, RunStar, Begins;
    NtFails(n, s);
    StarUnfolds(n, s);
    assert s.src[s.cur..s.cur] == "";
  }

  lemma StarGoes(n: Nonterminal, s: St, v: string, w: string)
    requires Silent(s) && Past(s, RunSym(N(n), s), v) && Silent(RunSym(N(n), s).st)
    requires Past(RunSym(N(n), s).st, RunStar(n, RunSym(N(n), s).st), w)
    ensures Past(s, RunStar(n, s), v + w)
  {
    hide RunSym, RunNt, RunStar, Starts;
    NtSym(n, s);
    StarUnfolds(n, s);
    StartsSplits(s.src, s.cur, v, w);
  }

  lemma PlusGoes(n: Nonterminal, s: St, v: string, w: string)
    requires Silent(s) && Past(s, RunSym(N(n), s), v) && Silent(RunSym(N(n), s).st)
    requires Past(RunSym(N(n), s).st, RunStar(n, RunSym(N(n), s).st), w)
    ensures Past(s, RunSym(Plus(n), s), v + w)
  {
    PlusSym(n, s);
    hide RunSym, RunNt, RunStar, RunPlus, Starts;
    NtSym(n, s);
    PlusUnfolds(n, s);
    StartsSplits(s.src, s.cur, v, w);
  }

  lemma PlusSym(n: Nonterminal, s: St)
    requires Ok(s)
    ensures RunSym(Plus(n), s) == RunPlus(n, s)
  {
    hide RunPlus;
  }

  /** Parameters leave a pair of brackets. */
  lemma ParametersRead(s: St, w: string, c: Ctx)
    requires Silent(s) && Past(s, RunSym(Plus(Type), s), w)
    ensures Scans(N(BareFunctionType), s, w, c, Said(c, "()"))
  {
    hide RunSym, RunPat, Scans, ScansPat, Said, Past;
    var q := Plus(Type);
    var d := PastScans(q, s, w, c);
    OneReads(q, s, w, c, d);
    PatPast(One(q), s, w, c, d);
    QuietReads(One(q), s, w, c);
    ThenEmits(Quiet(One(q)), "()", s, w, c, c);
    FirstReads(BareFunctionType, Two(Quiet(One(q)), Emit("()")), s, w, c, Said(c, "()"));
  }

  lemma PatPast(p: Pat, s: St, w: string, c: Ctx, d: Ctx)
    requires ScansPat(p, s, w, c, d)
    ensures Past(s, RunPat(p, s), w)
  {
  }

  /** So do template arguments, of another kind. */
  lemma ArgumentsRead(s: St, w: string, c: Ctx)
    requires Silent(s) && Starts(s.src, s.cur, "I" + (w + "E"))
    requires var t := s.(cur := s.cur + 1); Ok(t) && Past(t, RunSym(Plus(TemplateArg), t), w)
    ensures Scans(N(TemplateArgs), s, "I" + (w + "E"), c, Said(c, "<>"))
  {
    hide Ok, RunSym, RunPat, Scans, ScansPat, Said, Past, Starts;
    Within(s);
    var y, v := Plus(TemplateArg), "I" + (w + "E");
    StartsSplits(s.src, s.cur, "I", w + "E");
    StartsSplits(s.src, s.cur + 1, w, "E");
    LitReads("I", s, c);
    var t := LitState("I", s);
    var b := PastScans(y, t, w, c);
    var u := Advance(y, t, w, c, b);
    LitReads("E", u, b);
    TwoRead(y, Lit("E"), t, w, "E", c, b, b);
    ThenReads(Lit("I"), Two(y, Lit("E")), s, "I", w + "E", c, c, b);
    var p := Three(Lit("I"), y, Lit("E"));
    PatPast(p, s, v, c, b);
    QuietReads(p, s, v, c);
    ThenEmits(Quiet(p), "<>", s, v, c, c);
    FirstReads(TemplateArgs, Two(Quiet(p), Emit("<>")), s, v, c, Said(c, "<>"));
  }

  lemma FunctionTypeReads(linkage: bool, s: St, w: string, c: Ctx)
    requires Silent(s) && Starts(s.src, s.cur, "F" + (If(linkage, "Y") + (w + "E")))
    requires w != "" && w[0] != 'Y'
    requires var t := s.(cur := s.cur + if linkage then 2 else 1); Ok(t) && Past(t, RunSym(Plus(Type), t), w)
    ensures Scans(N(FunctionType), s, "F" + (If(linkage, "Y") + (w + "E")), c, Said(c, "()"))
  {
    hide Ok, RunSym, RunPat, Scans, ScansPat, Said, Past, Starts;
    Within(s);
    var y, v, d := Opt(Lit("Y")), If(linkage, "Y"), Said(c, "()");
    StartsSplits(s.src, s.cur, "F", v + (w + "E"));
    StartsSplits(s.src, s.cur + 1, v, w + "E");
    StartsSplits(s.src, s.cur + 1 + |v|, w, "E");
    LitReads("F", s, c);
    var t := LitState("F", s);
    LinkageReads(linkage, t, w + "E", c);
    var u := t.(cur := t.cur + |v|);
    ParametersRead(u, w, c);
    var x := Advance(N(BareFunctionType), u, w, c, d);
    LitReads("E", x, d);
    TwoRead(N(BareFunctionType), Lit("E"), u, w, "E", c, d, d);
    ThenReads(y, Two(N(BareFunctionType), Lit("E")), t, v, w + "E", c, c, d);
    ThenReads(Lit("F"), Three(y, N(BareFunctionType), Lit("E")), s, "F", v + (w + "E"), c, c, d);
    FirstReads(FunctionType, Four(Lit("F"), y, N(BareFunctionType), Lit("E")), s, "F" + (v + (w + "E")), c, d);
  }

  lemma LinkageReads(linkage: bool, s: St, w: string, c: Ctx)
    requires Silent(s) && Starts(s.src, s.cur, If(linkage, "Y") + w) && w != "" && w[0] != 'Y'
    ensures Scans(Opt(Lit("Y")), s, If(linkage, "Y"), c, c)
    ensures var t := s.(cur := s.cur + |If(linkage, "Y")|);
            RunSym(Opt(Lit("Y")), s).Match? && RunSym(Opt(Lit("Y")), s).st == t && Silent(t)
  {
    StartsSplits(s.src, s.cur, If(linkage, "Y"), w);
    TerminalUnfolds(Lit("Y"), s);
    PeekIs(s, If(linkage, "Y") + w);
    hide Starts;
    if linkage {
      LitReads("Y", s, c);
      OptionReads(Lit("Y"), s, "Y", c, c);
    } else {
      NoOption(Lit("Y"), s, c);
    }
  }

  // ---------- qualified names ----------

  /** From s the run of a prefix has read w and says what takes c to d. */
  predicate ScansPrefix(s: St, r: Res, w: string, first: bool, c: Ctx, d: Ctx) {
    && Silent(s) && Starts(s.src, s.cur, w) && r.Match?
    && r.st == s.(cur := s.cur + |w|, number := r.st.number, nest := r.st.nest) && SpellPrefix(first, r.tree, c) == d
  }

  lemma PrefixStops(has: bool, first: bool, s: St, c: Ctx)
    requires Silent(s) && Peek(s) == 'E'
    ensures ScansPrefix(s, RunPrefix(has, s), "", first, c, c)
  {
    hide RunNt, RunPrefix, RunPrefixArgs;
    assert Separate(s) == s && CancelSeparator(s) == s && s.src[s.cur..s.cur] == "";
    PrefixUnfolds(has, s);
    NtFails(PrefixItem, s);
    PrefixArgsUnfold(s);
    NtFails(TemplateArgs, s);
  }

  /** An item, and what comes behind it. */
  lemma PrefixGoes(has: bool, first: bool, s: St, v: string, w: string, c: Ctx, b: Ctx, d: Ctx)
    requires Scans(N(PrefixItem), s, v, if first then c else Said(c, "::"), b)
    requires var t := Deeper(RunSym(N(PrefixItem), s).st);
             Silent(t) && ScansPrefix(t, RunPrefix(true, t), w, false, b, d)
    ensures ScansPrefix(s, RunPrefix(has, s), v + w, first, c, d)
  {
    hide RunNt, RunSym, RunPrefix, RunPrefixArgs, Starts, Said, Spell;
    assert Separate(s) == s;
    NtSym(PrefixItem, s);
    PrefixUnfolds(has, s);
    ItemNode(PrefixItem, s);
    StartsSplits(s.src, s.cur, v, w);
    var t := Deeper(RunSym(N(PrefixItem), s).st);
    PrefixItemSpells(first, RunNt(PrefixItem, s).tree, RunPrefix(true, t).tree, c);
  }

  lemma ItemNode(n: Nonterminal, s: St)
    requires Ok(s)
    ensures var r := RunNt(n, s); r.Match? ==> r.tree.Node? && r.tree.n == n
  {
    hide RunNt, RunAlts, Rule;
    NtUnfolds(n, s);
    NodeOf(n, Rule(n), s);
  }

  lemma PrefixItemSpells(first: bool, t: Tree, u: Tree, c: Ctx)
    requires t.Node? && t.n == PrefixItem
    ensures SpellPrefix(first, Pair(t, u), c)
         == SpellPrefix(false, u, Spell(N(PrefixItem), t, if first then c else Said(c, "::")))
  {
    hide Said, Spell;
  }

  /** Template arguments behind an item. */
  lemma PrefixArgsGo(s: St, v: string, w: string, c: Ctx, b: Ctx, d: Ctx)
    requires Scans(N(TemplateArgs), s, v, c, b) && Peek(s) == 'I'
    requires var t := RunSym(N(TemplateArgs), s).st; Silent(t) && ScansPrefix(t, RunPrefix(false, t), w, false, b, d)
    ensures ScansPrefix(s, RunPrefix(true, s), v + w, false, c, d)
  {
    hide RunNt, RunSym, RunPrefix, RunPrefixArgs, Starts, Said, Spell;
    assert Separate(s) == s && CancelSeparator(s) == s;
    PrefixUnfolds(true, s);
    NtFails(PrefixItem, s);
    NtSym(TemplateArgs, s);
    PrefixArgsUnfold(s);
    ItemNode(TemplateArgs, s);
    StartsSplits(s.src, s.cur, v, w);
    var t := RunSym(N(TemplateArgs), s).st;
    PrefixArgsSpell(RunNt(TemplateArgs, s).tree, RunPrefix(false, t).tree, c);
  }

  lemma PrefixArgsSpell(t: Tree, u: Tree, c: Ctx)
    requires t.Node? && t.n == TemplateArgs
    ensures SpellPrefix(false, Pair(t, u), c) == SpellPrefix(false, u, Spell(N(TemplateArgs), t, c))
  {
    hide Said, Spell;
  }

  /** The whole prefix. */
  lemma WholePrefix(s: St, w: string, c: Ctx, d: Ctx)
    requires var t := s.(nest := 0); Silent(t) && ScansPrefix(t, RunPrefix(false, t), w, true, c, d)
    ensures Silent(s) && Scans(Prefix, s, w, c, d)
  {
    PrefixSym(s);
    hide RunSym, RunPrefix, Starts, SpellPrefix;
  }

  // ---------- how types and names begin ----------

  lemma TyBegins(t: Ty)
    requires GoodTy(t)
    ensures MangledTy(t) != ""
    ensures var ch := MangledTy(t)[0]; BeginsType(ch) && (!t.Qualified? ==> ch != 'r' && ch != 'V' && ch != 'K')
    decreases t, 1
  {
    hide Digits, Find, GoodTys, MangledTys;
    match t
    case Builtin(ch) => BuiltinLetters(ch);
    case ClassType(name) => EntityBegins(name);
    case _ =>
  }

  lemma EntityBegins(e: Entity)
    requires GoodEntity(e)
    ensures MangledEntity(e) != ""
    ensures var ch := MangledEntity(e)[0];
            BeginsClass(ch) || (IsLower(ch) && e.Plain? && !e.part.Identifier? && !e.part.Internal?)
  {
    hide Digits, Find, GoodTys, MangledTys, GoodPath, GoodEncoded, MangledPath, MangledEncoded;
    match e
    case Plain(_, part, _) => PartBegins(part);
    case _ =>
  }

  /** What may follow a list of types. */
  predicate Closes(ch: char) { ch == 'E' || ch == '@' || ch == '\0' }

  // ---------- everything together ----------

  lemma {:induction false} VendorReads(t: Ty, w: string, of: Ty, s: St, c: Ctx)
    requires t == Vendor(w, of) && Silent(s) && IsName(w) && GoodTy(of)
    requires var v := "U" + (Counted(w) + MangledTy(of)); Starts(s.src, s.cur, v) && Calm(Next(s, v))
    ensures Scans(N(Type), s, "U" + (Counted(w) + MangledTy(of)), c, SaidTy(of, Said(c, IdentifierText(w))))
    decreases t, 0
  {
    hide Ok, RunSym, RunPat, Scans, ScansPat, Starts, GoodTy, MangledTy, SaidTy, Counted, IsName, Said, IdentifierText;
    var v, u, b := Counted(w), MangledTy(of), Said(c, IdentifierText(w));
    var d := SaidTy(of, b);
    Within(s);
    StartsSplits(s.src, s.cur, "U", v + u);
    StartsSplits(s.src, s.cur + 1, v, u);
    PeekIs(s, "U");
    LitReads("U", s, c);
    var x := LitState("U", s);
    SourceNameReads(w, x, c);
    var y := Advance(N(SourceName), x, v, c, b);
    TyReads(of, y, b);
    TwoRead(N(SourceName), N(Type), x, v, u, c, b, d);
    ThenReads(Lit("U"), Two(N(SourceName), N(Type)), s, "U", v + u, c, c, d);
    VendorIsType(s, "U" + (v + u), c, d);
  }

  lemma VendorIsType(s: St, w: string, c: Ctx, d: Ctx)
    requires Silent(s) && Peek(s) == 'U' && ScansPat(Three(Lit("U"), N(SourceName), N(Type)), s, w, c, d)
    ensures Scans(N(Type), s, w, c, d)
  {
    hide Ok, RunPat, Scans, ScansPat;
    Unread(CVQualifiers, One(N(Type)), s);
    Unread(Class("PRCG"), One(N(Type)), s);
    ThirdReads(Type, Three(Lit("U"), N(SourceName), N(Type)), s, w, c, d);
  }

  lemma VendorTypeReads(w: string, s: St, c: Ctx)
    requires Silent(s) && IsName(w) && Starts(s.src, s.cur, "u" + Counted(w))
    ensures Scans(N(Type), s, "u" + Counted(w), c, Said(c, IdentifierText(w)))
  {
    hide RunSym, RunPat, RunAlts, Scans, ScansPat, ScansFrom, Starts, Counted, IsName, Said, IdentifierText;
    var v, d := Counted(w), Said(c, IdentifierText(w));
    StartsSplits(s.src, s.cur, "u", v);
    PeekIs(s, "u");
    LitReads("u", s, c);
    var x := LitState("u", s);
    SourceNameReads(w, x, c);
    TwoRead(Lit("u"), N(SourceName), s, "u", v, c, c, d);
    NoBuiltin(s);
    SecondReads(BuiltinType, Two(Lit("u"), N(SourceName)), s, "u" + v, c, d);
    OneReads(N(BuiltinType), s, "u" + v, c, d);
    TypesDescend();
    hide Descends;
    HereReads(Type, SimpleTypes(), One(N(BuiltinType)), s, "u" + v, c, d);
    TypeTail(s, "u" + v, c, d);
  }

  lemma NoBuiltin(s: St)
    requires Ok(s) && Peek(s) == 'u'
    ensures RunPat(One(BuiltinTable), s).NoMatch?
  {
    hide RunPat, RunSym, Find, BUILTINS;
    NoLetterU();
    TerminalUnfolds(BuiltinTable, s);
    OneFails(BuiltinTable, s);
  }

  lemma NoLetterU()
    ensures Find(BUILTINS, 0, First('u')) == |BUILTINS|
  {
    var i := Find(BUILTINS, 0, First('u'));
    if i < |BUILTINS| { BuiltinLetter(i); }
    FoundInTable(BUILTINS, 0, First('u'));
    hide Find, BUILTINS;
  }

  lemma {:induction false} TyReads(t: Ty, s: St, c: Ctx)
    requires Silent(s) && GoodTy(t) && Starts(s.src, s.cur, MangledTy(t)) && Calm(Next(s, MangledTy(t)))
    ensures Scans(N(Type), s, MangledTy(t), c, SaidTy(t, c))
    decreases t, 1
  {
    hide RunSym, RunPat, Scans, ScansPat, Starts, Said, SaidSub, MangledSub, GoodSub, GoodTys, MangledTys, MangledArgs;
    hide Id, Counted, IsName, IdentifierText;
    match t
    case Builtin(ch) => BuiltinIsType(ch, s, c);
    case Derived(ch, of) =>
      StartsSplits(s.src, s.cur, [ch], MangledTy(of));
      TyReads(of, s.(cur := s.cur + 1), c);
      DerivedIsType(ch, s, MangledTy(of), c, SaidTy(of, c));
    case Qualified(r, v, k, of) => QualifiedReads(t, r, v, k, of, s, c);
    case ClassType(name) => ClassTypeReads(name, s, c);
    case Short(sub) => ShortIsType(sub, s, c);
    case Param(n) => ParamIsType(n, s, c);
    case ParamOf(n, args) => ParamOfReads(t, n, args, s, c);
    case Signature(linkage, params) => SignatureReads(t, linkage, params, s, c);
    case Array(size, of) => ArrayReads(t, size, of, s, c);
    case MemberPointer(owner, of) => MemberReads(t, owner, of, s, c);
    case Vendor(w, of) => VendorReads(t, w, of, s, c);
    case VendorType(w) => VendorTypeReads(w, s, c);
  }

  lemma {:induction false} QualifiedReads(t: Ty, r: bool, v: bool, k: bool, of: Ty, s: St, c: Ctx)
    requires t == Qualified(r, v, k, of) && Silent(s) && GoodTy(of) && !of.Qualified? && (r || v || k)
    requires var w := Qualifiers(r, v, k) + MangledTy(of); Starts(s.src, s.cur, w) && Calm(Next(s, w))
    ensures Scans(N(Type), s, Qualifiers(r, v, k) + MangledTy(of), c, SaidTy(of, c))
    decreases t, 0
  {
    hide RunSym, RunPat, Scans, ScansPat, Starts, GoodTy, MangledTy, SaidTy;
    var q, w := Qualifiers(r, v, k), MangledTy(of);
    TyBegins(of);
    StartsSplits(s.src, s.cur, q, w);
    QualifiersRead(r, v, k, s, c);
    hide Qualifiers;
    TyReads(of, s.(cur := s.cur + |q|), c);
    TwoRead(CVQualifiers, N(Type), s, q, w, c, c, SaidTy(of, c));
    FirstReads(Type, Two(CVQualifiers, N(Type)), s, q + w, c, SaidTy(of, c));
  }

  lemma {:induction false} ClassTypeReads(name: Entity, s: St, c: Ctx)
    requires Silent(s) && GoodClass(name) && Starts(s.src, s.cur, MangledEntity(name))
    requires Calm(Next(s, MangledEntity(name)))
    ensures Scans(N(Type), s, MangledEntity(name), c, SaidEntity(name, c))
    decreases name, 4
  {
    hide RunSym, Scans, Starts, MangledEntity, SaidEntity, GoodEntity;
    EntityBegins(name);
    PeekIs(s, MangledEntity(name));
    EntityReads(name, s, c);
    ClassIsType(s, MangledEntity(name), c, SaidEntity(name, c));
  }

  lemma {:induction false} ParamOfReads(t: Ty, n: nat, args: Tys, s: St, c: Ctx)
    requires t == ParamOf(n, args) && Silent(s) && GoodTys(args, true) && args.Types?
    requires Starts(s.src, s.cur, "T" + (Id(n, 10) + MangledArgs(args)))
    ensures Scans(N(Type), s, "T" + (Id(n, 10) + MangledArgs(args)), c, Said(Said(c, "?"), "<>"))
    decreases t, 0
  {
    hide RunSym, RunPat, Scans, ScansPat, Starts, Said, GoodTys, MangledArgs, Id;
    var v, w, b := "T" + Id(n, 10), MangledArgs(args), Said(c, "?");
    assert "T" + (Id(n, 10) + w) == v + w;
    StartsSplits(s.src, s.cur, v, w);
    if Scans(N(TemplateTemplateParam), s, v, c, b) {
      var u := Advance(N(TemplateTemplateParam), s, v, c, b);
      ArgsRead(args, u, b);
    }
    ParamOfIsType(n, s, w, c, Said(b, "<>"));
  }

  lemma {:induction false} SignatureReads(t: Ty, linkage: bool, params: Tys, s: St, c: Ctx)
    requires t == Signature(linkage, params) && Silent(s) && GoodTys(params, false) && params.Types?
    requires Starts(s.src, s.cur, "F" + (If(linkage, "Y") + (MangledTys(params) + "E")))
    ensures Scans(N(Type), s, "F" + (If(linkage, "Y") + (MangledTys(params) + "E")), c, Said(c, "()"))
    decreases t, 0
  {
    hide RunSym, RunPat, Scans, ScansPat, Starts, Said, GoodTys, MangledTys;
    var v, w := If(linkage, "Y"), MangledTys(params);
    StartsSplits(s.src, s.cur, "F", v + (w + "E"));
    StartsSplits(s.src, s.cur + 1, v, w + "E");
    StartsSplits(s.src, s.cur + 1 + |v|, w, "E");
    PeekIs(s, "F");
    TysBegin(params, false);
    PlusReads(Type, params, s.(cur := s.cur + 1 + |v|));
    FunctionTypeReads(linkage, s, w, c);
    SignatureIsType(s, "F" + (v + (w + "E")), c, Said(c, "()"));
  }

  lemma TysBegin(ts: Tys, args: bool)
    requires GoodTys(ts, args) && ts.Types?
    ensures MangledTys(ts) != "" && BeginsType(MangledTys(ts)[0])
  {
    hide GoodTy;
    if !ts.first.Literal? && !ts.first.Address? { TyBegins(ts.first); }
  }

  lemma {:induction false} ArrayReads(t: Ty, size: nat, of: Ty, s: St, c: Ctx)
    requires t == Array(size, of) && Silent(s) && GoodTy(of)
    requires var w := "A" + (Digits(size, 10) + ("_" + MangledTy(of))); Starts(s.src, s.cur, w) && Calm(Next(s, w))
    ensures Scans(N(Type), s, "A" + (Digits(size, 10) + ("_" + MangledTy(of))), c, SaidTy(of, c))
    decreases t, 0
  {
    hide Ok, RunSym, RunPat, Scans, ScansPat, Starts, Digits, GoodTy, MangledTy, SaidTy;
    var n, w, d := Digits(size, 10), MangledTy(of), SaidTy(of, c);
    var u, v, x := BoundReads(size, w, s, c);
    TyReads(of, x, c);
    TwoRead(Lit("_"), N(Type), v, "_", w, c, c, d);
    ThenReads(NUMBER, Two(Lit("_"), N(Type)), u, n, "_" + w, c, c, d);
    ThenReads(Lit("A"), Three(NUMBER, Lit("_"), N(Type)), s, "A", n + ("_" + w), c, c, d);
    FirstReads(ArrayType, Four(Lit("A"), NUMBER, Lit("_"), N(Type)), s, "A" + (n + ("_" + w)), c, d);
    ArrayIsType(s, "A" + (n + ("_" + w)), c, d);
  }

  /** The bound of an array, and the states behind its parts. */
  lemma BoundReads(size: nat, w: string, s: St, c: Ctx) returns (u: St, v: St, x: St)
    requires Silent(s) && Starts(s.src, s.cur, "A" + (Digits(size, 10) + ("_" + w)))
    ensures Scans(Lit("A"), s, "A", c, c) && u == RunSym(Lit("A"), s).st && Peek(s) == 'A'
    ensures Scans(NUMBER, u, Digits(size, 10), c, c) && v == RunSym(NUMBER, u).st
    ensures Scans(Lit("_"), v, "_", c, c) && x == RunSym(Lit("_"), v).st
    ensures Silent(x) && x.src == s.src && x.cur == s.cur + 2 + |Digits(size, 10)| && Starts(x.src, x.cur, w)
  {
    hide Ok, RunSym, Scans, Starts, Digits;
    Within(s);
    StartsSplits(s.src, s.cur, "A", Digits(size, 10) + ("_" + w));
    PeekIs(s, "A");
    LitReads("A", s, c);
    u := LitState("A", s);
    v, x := PlaceReads(size, w, u, c);
  }

  lemma {:induction false} MemberReads(t: Ty, owner: Ty, of: Ty, s: St, c: Ctx)
    requires t == MemberPointer(owner, of) && Silent(s) && GoodTy(owner) && GoodTy(of)
    requires var w := "M" + (MangledTy(owner) + MangledTy(of)); Starts(s.src, s.cur, w) && Calm(Next(s, w))
    ensures Scans(N(Type), s, "M" + (MangledTy(owner) + MangledTy(of)), c, SaidTy(of, SaidTy(owner, c)))
    decreases t, 0
  {
    hide RunSym, RunPat, Scans, ScansPat, Starts, GoodTy, MangledTy, SaidTy;
    var v, w, b := MangledTy(owner), MangledTy(of), SaidTy(owner, c);
    var d := SaidTy(of, b);
    StartsSplits(s.src, s.cur, "M", v + w);
    StartsSplits(s.src, s.cur + 1, v, w);
    PeekIs(s, "M");
    TyBegins(of);
    LitReads("M", s, c);
    var u := LitState("M", s);
    TyReads(owner, u, c);
    var x := Advance(N(Type), u, v, c, b);
    TyReads(of, x, b);
    TwoRead(N(Type), N(Type), u, v, w, c, b, d);
    ThenReads(Lit("M"), Two(N(Type), N(Type)), s, "M", v + w, c, c, d);
    FirstReads(PointerToMemberType, Three(Lit("M"), N(Type), N(Type)), s, "M" + (v + w), c, d);
    MemberIsType(s, "M" + (v + w), c, d);
  }

  /** An element of a list. */
  lemma {:induction false} ElementReads(n: Nonterminal, t: Ty, s: St)
    requires (n == Type || n == TemplateArg) && Silent(s) && GoodElement(t, n == TemplateArg)
    requires Starts(s.src, s.cur, MangledTy(t)) && Calm(Next(s, MangledTy(t)))
    ensures Past(s, RunSym(N(n), s), MangledTy(t))
    decreases t, 2
  {
    hide RunSym, Scans, Starts, GoodTy, SaidTy, GoodEncoded, MangledEncoded, Past, Ok, MangledTy, SignedNumber;
    ElementUnfolds(t);
    match t
    case Literal(of, value) => LiteralReads(t, of, value, s);
    case Address(enc) => AddressReads(t, enc, s);
    case _ =>
      TyReads(t, s, Ctx("", ""));
      TypeIsElement(n, s, MangledTy(t), Ctx("", ""), SaidTy(t, Ctx("", "")));
  }

  lemma ElementUnfolds(t: Ty)
    ensures t.Literal? ==> MangledTy(t) == "L" + (MangledTy(t.of) + (SignedNumber(t.value) + "E"))
    ensures t.Address? ==> MangledTy(t) == "L" + ("_Z" + MangledEncoded(t.enc) + "E")
  {
    hide SignedNumber, MangledEncoded;
  }

  lemma TypeIsElement(n: Nonterminal, s: St, w: string, c: Ctx, d: Ctx)
    requires (n == Type || n == TemplateArg) && Silent(s) && Scans(N(Type), s, w, c, d)
    ensures Past(s, RunSym(N(n), s), w)
  {
    hide RunSym, Scans, ScansPat, Past;
    if n == TemplateArg {
      OneReads(N(Type), s, w, c, d);
      FirstReads(TemplateArg, One(N(Type)), s, w, c, d);
    }
    ScansPast(N(n), s, w, c, d);
  }

  lemma ScansPast(y: Sym, s: St, w: string, c: Ctx, d: Ctx)
    requires Scans(y, s, w, c, d)
    ensures Past(s, RunSym(y, s), w)
  {
  }

  // ---------- values ----------

  /** At an L with something else behind it than a source name there is no type. */
  lemma NoTypeAt(s: St)
    requires Silent(s) && Peek(s) == 'L' && !Begins(SourceName, CharAt(s.src, s.cur + 1))
    ensures RunPat(One(N(Type)), s).NoMatch?
  {
    hide Ok, RunSym, RunPat, Begins;
    NoUnqualifiedAt(s);
    NoNameAt(s);
    NoClassName(s);
    NoOtherType(s);
    OneFails(N(Type), s);
  }

  lemma NoNameAt(s: St)
    requires Silent(s) && Peek(s) == 'L' && RunSym(N(UnqualifiedName), s).NoMatch?
    ensures RunSym(N(Name), s).NoMatch?
  {
    hide Ok, RunSym, RunPat;
    Unread(Lit("St"), Two(Emit("std::"), N(UnqualifiedName)), s);
    OneFails(N(UnqualifiedName), s);
    TwoFail(UnscopedName, One(N(UnqualifiedName)), Three(Lit("St"), Emit("std::"), N(UnqualifiedName)), s);
    OneFails(N(UnscopedName), s);
    NoSuch(Substitution, Done, s);
    TwoFail(UnscopedTemplateName, One(N(UnscopedName)), One(N(Substitution)), s);
    HeadFails(N(UnscopedTemplateName), One(N(TemplateArgs)), s);
    NoScopedName(s);
  }

  lemma HeadFails(y: Sym, p: Pat, s: St)
    requires Ok(s) && RunSym(y, s).NoMatch?
    ensures RunPat(Then(y, p), s).NoMatch?
  {
    hide RunSym, RunPat;
    PatUnfolds(Then(y, p), s);
  }

  lemma NoUnqualifiedAt(s: St)
    requires Silent(s) && Peek(s) == 'L' && !Begins(SourceName, CharAt(s.src, s.cur + 1))
    ensures RunSym(N(UnqualifiedName), s).NoMatch?
  {
    hide RunSym, RunPat, Scans;
    var c, o := Ctx("", ""), Opt(N(Discriminator));
    assert s.src[s.cur..s.cur + 1] == "L";
    LitReads("L", s, c);
    var t := LitState("L", s);
    SecondFails(Lit("L"), N(SourceName), One(o), s, "L", c, c);
    HeadFailsOne(s);
    NoSuch(OperatorName, Done, s);
    NoSuch(CtorDtorName, Done, s);
    NoSuch(SourceName, Done, s);
    FourFail(UnqualifiedName, s);
  }

  /** Where its one alternative fails, so does a local source name. */
  lemma HeadFailsOne(s: St)
    requires Silent(s) && RunPat(Three(Lit("L"), N(SourceName), Opt(N(Discriminator))), s).NoMatch?
    ensures RunPat(One(N(LocalSourceName)), s).NoMatch?
  {
    hide RunSym, RunPat, RunNt;
    SingleUnfolds(LocalSourceName, Three(Lit("L"), N(SourceName), Opt(N(Discriminator))), s);
    NtSym(LocalSourceName, s);
    OneFails(N(LocalSourceName), s);
  }

  /** Nor is it a type of another kind. */
  lemma NoOtherType(s: St)
    requires Silent(s) && Peek(s) == 'L' && RunPat(One(N(ClassEnumType)), s).NoMatch?
    ensures RunSym(N(Type), s).NoMatch?
  {
    hide Ok, RunSym, RunPat, RunNt, RunAlts, Descends, Rule, SimpleTypes, CompoundTypes;
    NtUnfolds(Type, s);
    NtSym(Type, s);
    NoQualifiedType(s);
    NoSimpleType(s);
    NoCompoundType(s);
  }

  lemma NoQualifiedType(s: St)
    requires Silent(s) && Peek(s) == 'L'
    ensures Descends(Rule(Type), Level(Type)) && Descends(SimpleTypes(), Level(Type))
    ensures RunAlts(Type, Rule(Type), s) == RunAlts(Type, SimpleTypes(), s)
  {
    hide Ok, RunPat, RunAlts, Descends;
    NoLeftRecursion(Type);
    Unread(CVQualifiers, One(N(Type)), s);
    Unread(Class("PRCG"), One(N(Type)), s);
    Unread(Lit("U"), Two(N(SourceName), N(Type)), s);
    SkipThree(Type, Two(CVQualifiers, N(Type)), Two(Class("PRCG"), N(Type)), Three(Lit("U"), N(SourceName), N(Type)),
              SimpleTypes(), s);
  }

  lemma NoSimpleType(s: St)
    requires Silent(s) && Peek(s) == 'L' && RunPat(One(N(ClassEnumType)), s).NoMatch?
    ensures Descends(SimpleTypes(), Level(Type)) && Descends(CompoundTypes(), Level(Type))
    ensures RunAlts(Type, SimpleTypes(), s) == RunAlts(Type, CompoundTypes(), s)
  {
    hide Ok, RunPat, RunAlts, Descends;
    TypesDescend();
    NoSuch(BuiltinType, Done, s);
    NoSuch(FunctionType, Done, s);
    SkipThree(Type, One(N(BuiltinType)), One(N(FunctionType)), One(N(ClassEnumType)), CompoundTypes(), s);
  }

  lemma NoCompoundType(s: St)
    requires Silent(s) && Peek(s) == 'L'
    ensures Descends(CompoundTypes(), Level(Type)) && RunAlts(Type, CompoundTypes(), s).NoMatch?
  {
    hide Ok, RunPat, RunAlts, Descends;
    TypesDescend();
    NoSuch(ArrayType, Done, s);
    NoSuch(PointerToMemberType, Done, s);
    NoSuch(Substitution, Done, s);
    NoSuch(TemplateTemplateParam, One(N(TemplateArgs)), s);
    NoSuch(TemplateParam, Done, s);
    SkipThree(Type, One(N(ArrayType)), One(N(PointerToMemberType)), One(N(Substitution)), TemplateTypes(), s);
    SkipOne(Type, TemplateTypes(), s);
    AltsUnfold(Type, TemplateTypes().rest, s);
  }

  lemma SkipThree(n: Nonterminal, p: Pat, q: Pat, r: Pat, rest: Alts, s: St)
    requires RunPatFails(p, s) && RunPatFails(q, s) && RunPatFails(r, s) && rest.Or?
    requires Descends(Or(p, Or(q, Or(r, rest))), Level(n))
    ensures Descends(rest, Level(n)) && RunAlts(n, Or(p, Or(q, Or(r, rest))), s) == RunAlts(n, rest, s)
  {
    hide RunPat, RunAlts, Descends;
    SkipOne(n, Or(p, Or(q, Or(r, rest))), s);
    SkipOne(n, Or(q, Or(r, rest)), s);
    SkipOne(n, Or(r, rest), s);
  }

  lemma {:induction false} LiteralReads(t: Ty, of: Ty, value: int, s: St)
    requires t == Literal(of, value) && Silent(s) && GoodTy(of) && MangledTy(of) != ""
    requires !Begins(SourceName, MangledTy(of)[0])
    requires Starts(s.src, s.cur, "L" + (MangledTy(of) + (SignedNumber(value) + "E")))
    ensures Past(s, RunSym(N(TemplateArg), s), "L" + (MangledTy(of) + (SignedNumber(value) + "E")))
    decreases t, 1
  {
    hide Ok, RunSym, RunPat, Scans, ScansPat, Starts, GoodTy, SaidTy, SignedNumber, Digit, Past, MangledTy, Begins;
    var c, v, n := Ctx("", ""), MangledTy(of), SignedNumber(value);
    var d, y := SaidTy(of, c), Lit("E");
    Within(s);
    StartsSplits(s.src, s.cur, "L", v + (n + "E"));
    StartsSplits(s.src, s.cur + 1, v, n + "E");
    PeekIs(s, "L");
    SignedBegins(value);
    LitReads("L", s, c);
    var x := LitState("L", s);
    TyReads(of, x, c);
    var z := Advance(N(Type), x, v, c, d);
    NumberAndEnd(value, z, d);
    ThenReads(N(Type), Two(NUMBER, y), x, v, n + "E", c, d, d);
    ThenReads(Lit("L"), Three(N(Type), NUMBER, y), s, "L", v + (n + "E"), c, c, d);
    FirstReads(ExprPrimary, Four(Lit("L"), N(Type), NUMBER, y), s, "L" + (v + (n + "E")), c, d);
    PrimaryIsArgument(s, "L" + (v + (n + "E")), c, d);
  }

  lemma NumberAndEnd(value: int, s: St, c: Ctx)
    requires Silent(s) && Starts(s.src, s.cur, SignedNumber(value) + "E")
    ensures ScansPat(Two(NUMBER, Lit("E")), s, SignedNumber(value) + "E", c, c)
  {
    hide Ok, RunSym, Scans, ScansPat, Starts, SignedNumber, Digit;
    var n := SignedNumber(value);
    Within(s);
    StartsSplits(s.src, s.cur, n, "E");
    LetterIsNoDigit();
    SignedRead(value, s, c);
    var u := Advance(NUMBER, s, n, c, c);
    LitReads("E", u, c);
    TwoRead(NUMBER, Lit("E"), s, n, "E", c, c, c);
  }

  lemma LetterIsNoDigit()
    ensures Digit(Decimal, 'E') < 0 && Digit(Decimal, '_') < 0
  {
  }

  lemma SignedBegins(n: int)
    ensures SignedNumber(n) != "" && Calm(SignedNumber(n)[0])
  {
    hide Digits;
    if n >= 0 { DigitsBegin(n); }
  }

  lemma PrimaryIsArgument(s: St, w: string, c: Ctx, d: Ctx)
    requires Silent(s) && Scans(N(ExprPrimary), s, w, c, d)
    requires Peek(s) == 'L' && !Begins(SourceName, CharAt(s.src, s.cur + 1))
    ensures Past(s, RunSym(N(TemplateArg), s), w)
  {
    hide RunSym, RunPat, Scans, ScansPat, Past;
    NoTypeAt(s);
    OneReads(N(ExprPrimary), s, w, c, d);
    SecondReads(TemplateArg, One(N(ExprPrimary)), s, w, c, d);
    ScansPast(N(TemplateArg), s, w, c, d);
  }

  lemma {:induction false} AddressReads(t: Ty, enc: Encoded, s: St)
    requires t == Address(enc) && Silent(s) && GoodEncoded(enc)
    requires Starts(s.src, s.cur, "L" + ("_Z" + MangledEncoded(enc) + "E"))
    ensures Past(s, RunSym(N(TemplateArg), s), "L" + ("_Z" + MangledEncoded(enc) + "E"))
    decreases t, 1
  {
    hide Ok, RunSym, RunPat, Scans, ScansPat, Starts, GoodEncoded, SaidEncoded, MangledEncoded, Past;
    var c, w := Ctx("", ""), "_Z" + MangledEncoded(enc);
    var d := SaidEncoded(enc, c);
    Within(s);
    StartsSplits(s.src, s.cur, "L", w + "E");
    StartsSplits(s.src, s.cur + 1, w, "E");
    PeekIs(s, "L");
    LitReads("L", s, c);
    var x := LitState("L", s);
    PeekIs(x, w);
    InnerSymbol(t, enc, x, c);
    var u := Advance(N(MangledName), x, w, c, d);
    LitReads("E", u, d);
    TwoRead(N(MangledName), Lit("E"), x, w, "E", c, d, d);
    ThenReads(Lit("L"), Two(N(MangledName), Lit("E")), s, "L", w + "E", c, c, d);
    NoLiteral(s, x);
    ThirdReads(ExprPrimary, Three(Lit("L"), N(MangledName), Lit("E")), s, "L" + (w + "E"), c, d);
    PrimaryIsArgument(s, "L" + (w + "E"), c, d);
  }

  lemma {:induction false} InnerSymbol(t: Ty, enc: Encoded, s: St, c: Ctx)
    requires t == Address(enc) && Silent(s) && GoodEncoded(enc) && Starts(s.src, s.cur, "_Z" + MangledEncoded(enc))
    requires Next(s, "_Z" + MangledEncoded(enc)) == 'E'
    ensures Scans(N(MangledName), s, "_Z" + MangledEncoded(enc), c, SaidEncoded(enc, c))
    decreases t, 0
  {
    hide Ok, RunSym, RunPat, Scans, ScansPat, Starts, GoodEncoded, SaidEncoded, MangledEncoded;
    var v, d := MangledEncoded(enc), SaidEncoded(enc, c);
    Within(s);
    StartsSplits(s.src, s.cur, "_Z", v);
    LitReads("_Z", s, c);
    var y := LitState("_Z", s);
    EncodedReads(enc, y, c);
    var z := Advance(N(Encoding), y, v, c, d);
    NoSuffix(z, d);
    TwoRead(N(Encoding), Suffix, y, v, "", c, d, d);
    assert v + "" == v;
    ThenReads(Lit("_Z"), Two(N(Encoding), Suffix), s, "_Z", v, c, c, d);
    FirstReads(MangledName, Three(Lit("_Z"), N(Encoding), Suffix), s, "_Z" + v, c, d);
  }

  /** No version follows. */
  lemma NoSuffix(s: St, c: Ctx)
    requires Silent(s) && Peek(s) == 'E'
    ensures Scans(Suffix, s, "", c, c)
  {
    assert s.src[s.cur..s.cur] == "";
    assert s.src[s.cur..s.cur + 1] == "E";
    TerminalReads(Suffix, s, "", c);
    hide RunSym, Scans;
  }

  /** An underscore begins no type. */
  lemma NoLiteral(s: St, x: St)
    requires Silent(s) && Starts(s.src, s.cur, "L") && RunSym(Lit("L"), s).Match? && x == RunSym(Lit("L"), s).st
    requires Silent(x) && Peek(x) == '_'
    ensures RunPat(Four(Lit("L"), N(Type), NUMBER, Lit("E")), s).NoMatch?
    ensures RunPat(Four(Lit("L"), N(Type), Numeral(Hexadecimal), Lit("E")), s).NoMatch?
  {
    hide RunSym, RunPat, Scans, Starts;
    var c := Ctx("", "");
    LitReads("L", s, c);
    SecondFails(Lit("L"), N(Type), Two(NUMBER, Lit("E")), s, "L", c, c);
    SecondFails(Lit("L"), N(Type), Two(Numeral(Hexadecimal), Lit("E")), s, "L", c, c);
  }

  /** At an L with a source name behind it a template argument ends behind that name: a value of such a class type is
      not read as one. */
  lemma NameBeforeValue(w: string, s: St)
    requires Silent(s) && IsName(w) && Starts(s.src, s.cur, "L" + Counted(w)) && Calm(Next(s, "L" + Counted(w)))
    ensures Past(s, RunSym(N(TemplateArg), s), "L" + Counted(w))
  {
    hide RunSym, Starts, Past, IsName, Counted;
    var e := Plain(false, Internal(w), NoTypes);
    assert GoodPart(e.part) && GoodTys(NoTypes, true);
    assert GoodEntity(e);
    assert If(false, "St") + MangledPart(e.part) == "L" + Counted(w);
    NoArgs();
    assert MangledEntity(e) == "L" + Counted(w);
    hide GoodPart, MangledPart, GoodTys, MangledArgs;
    assert GoodClass(e) && MangledTy(ClassType(e)) == MangledEntity(e);
    ElementReads(TemplateArg, ClassType(e), s);
  }

  // ---------- lists and everything else ----------

  lemma {:induction false} StarReads(n: Nonterminal, ts: Tys, s: St)
    requires (n == Type || n == TemplateArg) && Silent(s) && GoodTys(ts, n == TemplateArg)
    requires Starts(s.src, s.cur, MangledTys(ts)) && Closes(Next(s, MangledTys(ts)))
    ensures Past(s, RunStar(n, s), MangledTys(ts))
    decreases ts, 1
  {
    hide RunSym, RunStar, Scans, Starts, GoodElement, MangledTy, Past;
    if ts.NoTypes? {
      StarStops(n, s);
    } else {
      var v, w := MangledTy(ts.first), MangledTys(ts.rest);
      var t := HeadReads(n, ts, s);
      StarReads(n, ts.rest, t);
      StarGoes(n, s, v, w);
    }
  }

  /** The first element of a list. */
  lemma {:induction false} HeadReads(n: Nonterminal, ts: Tys, s: St) returns (t: St)
    requires (n == Type || n == TemplateArg) && Silent(s) && GoodTys(ts, n == TemplateArg) && ts.Types?
    requires Starts(s.src, s.cur, MangledTys(ts)) && Closes(Next(s, MangledTys(ts)))
    ensures Past(s, RunSym(N(n), s), MangledTy(ts.first)) && t == RunSym(N(n), s).st && Silent(t) && t.src == s.src
    ensures Starts(t.src, t.cur, MangledTys(ts.rest)) && Closes(Next(t, MangledTys(ts.rest)))
    decreases ts, 0
  {
    hide RunSym, Scans, Starts, GoodElement, MangledTy, Past;
    var c, v, w := Ctx("", ""), MangledTy(ts.first), MangledTys(ts.rest);
    StartsSplits(s.src, s.cur, v, w);
    if ts.rest.Types? { TysBegin(ts.rest, n == TemplateArg); }
    ElementReads(n, ts.first, s);
    var d := PastScans(N(n), s, v, c);
    t := Advance(N(n), s, v, c, d);
  }

  lemma {:induction false} PlusReads(n: Nonterminal, ts: Tys, s: St)
    requires (n == Type || n == TemplateArg) && ts.Types? && Silent(s) && GoodTys(ts, n == TemplateArg)
    requires Starts(s.src, s.cur, MangledTys(ts)) && Closes(Next(s, MangledTys(ts)))
    ensures Past(s, RunSym(Plus(n), s), MangledTys(ts))
    decreases ts, 1
  {
    hide RunSym, RunStar, Scans, Starts, GoodElement, MangledTy, Past;
    var t := HeadReads(n, ts, s);
    StarReads(n, ts.rest, t);
    PlusGoes(n, s, MangledTy(ts.first), MangledTys(ts.rest));
  }

  lemma {:induction false} ArgsRead(args: Tys, s: St, c: Ctx)
    requires Silent(s) && GoodTys(args, true) && args.Types? && Starts(s.src, s.cur, MangledArgs(args))
    ensures Scans(N(TemplateArgs), s, MangledArgs(args), c, Said(c, "<>"))
    decreases args, 2
  {
    hide RunSym, Scans, Starts, GoodTys, MangledTys, Said;
    var w := MangledTys(args);
    StartsSplits(s.src, s.cur, "I", w + "E");
    StartsSplits(s.src, s.cur + 1, w, "E");
    PlusReads(TemplateArg, args, s.(cur := s.cur + 1));
    ArgumentsRead(s, w, c);
  }

  predicate MayFollow(p: Part, ch: char) { (p.Cast? ==> Calm(ch)) && (p.Internal? ==> ch != '_') }

  lemma {:induction false} NameReads(p: Part, s: St, c: Ctx)
    requires Silent(s) && GoodPart(p) && !p.Shortened? && !p.Parameter? && Starts(s.src, s.cur, MangledPart(p))
    requires MayFollow(p, Next(s, MangledPart(p)))
    ensures Scans(N(UnqualifiedName), s, MangledPart(p), c, SaidPart(p, c))
    ensures Scans(N(UnscopedName), s, MangledPart(p), c, SaidPart(p, c))
    ensures BeginsPart(p, Peek(s))
    decreases p, 1
  {
    hide RunSym, Scans, Starts, Said, SaidOperator, Entry, Find, Counted, IsName, IdentifierText, SaidTy, GoodTy;
    hide MangledTy;
    match p {
      case Identifier(w) => SourceNameReads(w, s, c);
      case Internal(w) => InternalReads(w, s, c);
      case Operator(a, b) => OperatorNameReads(a, b, s, c);
      case Cast(target) => CastReads(target, s, c);
      case Constructor(kind) => ConstructorReads(kind, s, c);
      case Destructor(kind) => DestructorReads(kind, s, c);
    }
    UnqualifiedReads(p, s, c);
  }

  lemma {:induction false} CastReads(target: Ty, s: St, c: Ctx)
    requires Silent(s) && GoodTy(target) && Starts(s.src, s.cur, "cv" + MangledTy(target))
    requires Calm(Next(s, "cv" + MangledTy(target)))
    ensures Scans(N(OperatorName), s, "cv" + MangledTy(target), c, SaidTy(target, Said(c, "operator ")))
    decreases target, 2
  {
    hide RunSym, Scans, ScansPat, Starts, Said, SaidTy, GoodTy, MangledTy;
    var w, b := MangledTy(target), Said(c, "operator ");
    var d := SaidTy(target, b);
    StartsSplits(s.src, s.cur, "cv", w);
    LitReads("cv", s, c);
    var t := LitState("cv", s);
    EmitReads("operator ", t, c);
    EmitState("operator ", t);
    TyReads(target, t.(nest := 0), b);
    NestedReads(N(Type), t, w, b, d);
    TwoRead(Emit("operator "), Nested(N(Type)), t, "", w, c, b, d);
    assert "" + w == w;
    ThenReads(Lit("cv"), Two(Emit("operator "), Nested(N(Type))), s, "cv", w, c, c, d);
    FirstReads(OperatorName, Three(Lit("cv"), Emit("operator "), Nested(N(Type))), s, "cv" + w, c, d);
  }

  /** What follows a component: nothing of its own. */
  lemma PathBegins(path: Path, before: Part)
    requires GoodPath(path, before)
    ensures MangledPath(path) != ""
    ensures var ch := MangledPath(path)[0]; Calm(ch) && (BeginsPath(path.part) ==> ch != 'r' && ch != 'V' && ch != 'K')
  {
    PartBegins(path.part);
    hide MangledPart, GoodPart, GoodTys, MangledArgs, Digits;
  }

  lemma {:induction false} PathReads(path: Path, before: Part, has: bool, first: bool, s: St, c: Ctx)
    requires GoodPath(path, before) && Silent(s)
    requires Starts(s.src, s.cur, MangledPath(path)) && Next(s, MangledPath(path)) == 'E'
    ensures ScansPrefix(s, RunPrefix(has, s), MangledPath(path), first, c, SaidPath(path, first, c))
    decreases path, 3
  {
    hide RunSym, RunPrefix, Scans, ScansPrefix, Starts, Said, SaidPart, GoodPart, GoodTys, MangledPart;
    var c0 := if first then c else Said(c, "::");
    var v, w, b := MangledPart(path.part), AfterPart(path), SaidPart(path.part, c0);
    assert MangledPath(path) == v + w;
    StartsSplits(s.src, s.cur, v, w);
    AfterBegins(path, before);
    PartReads(path.part, s, c0);
    var t := Advance(N(PrefixItem), s, v, c0, b);
    AfterReads(path, before, Deeper(t), b);
    PrefixGoes(has, first, s, v, w, c, b, SaidPath(path, first, c));
  }

  /** The mangled path behind its first component. */
  function AfterPart(path: Path): string {
    MangledArgs(path.args) + if path.Chain? then MangledPath(path.rest) else ""
  }

  lemma AfterBegins(path: Path, before: Part)
    requires GoodPath(path, before)
    ensures AfterPart(path) == "" || MayFollow(path.part, AfterPart(path)[0])
  {
    if path.Chain? { PathBegins(path.rest, path.part); }
    hide MangledPath, MangledTys, GoodPart, GoodTys;
  }

  function SaidAfter(path: Path, c: Ctx): Ctx {
    var d := SaidArgs(path.args, c);
    if path.Chain? then SaidPath(path.rest, false, d) else d
  }

  lemma {:induction false} PartReads(p: Part, s: St, c: Ctx)
    requires Silent(s) && GoodPart(p) && Starts(s.src, s.cur, MangledPart(p))
    requires MayFollow(p, Next(s, MangledPart(p)))
    ensures Scans(N(PrefixItem), s, MangledPart(p), c, SaidPart(p, c))
    decreases p, 2
  {
    hide RunSym, Scans, Starts, SaidPart, GoodPart, MangledPart;
    if !p.Shortened? && !p.Parameter? { NameReads(p, s, c); }
    ItemReads(p, s, c);
  }

  lemma {:induction false} AfterReads(path: Path, before: Part, s: St, c: Ctx)
    requires GoodPath(path, before) && Silent(s)
    requires Starts(s.src, s.cur, AfterPart(path)) && Next(s, AfterPart(path)) == 'E'
    ensures ScansPrefix(s, RunPrefix(true, s), AfterPart(path), false, c, SaidAfter(path, c))
    decreases path, 2
  {
    hide RunSym, RunPrefix, Scans, ScansPrefix, Starts, Said, GoodPart, GoodTys, MangledArgs, MangledPath, SaidPath;
    var v, w, b := MangledArgs(path.args), if path.Chain? then MangledPath(path.rest) else "", SaidArgs(path.args, c);
    if path.args.NoTypes? {
      NoArgs();
      assert v + w == w;
      RestReads(path, before, true, s, b);
    } else {
      ArgsBegin(path.args);
      StartsSplits(s.src, s.cur, v, w);
      PeekIs(s, v);
      ArgsRead(path.args, s, c);
      var t := Advance(N(TemplateArgs), s, v, c, b);
      RestReads(path, before, false, t, b);
      PrefixArgsGo(s, v, w, c, b, SaidAfter(path, c));
    }
  }

  lemma NoArgs()
    ensures MangledArgs(NoTypes) == ""
  {
  }

  lemma ArgsBegin(args: Tys)
    requires args.Types?
    ensures MangledArgs(args) != "" && MangledArgs(args)[0] == 'I'
  {
    hide MangledTys;
  }

  lemma {:induction false} RestReads(path: Path, before: Part, has: bool, s: St, c: Ctx)
    requires GoodPath(path, before) && Silent(s)
    requires var w := if path.Chain? then MangledPath(path.rest) else "";
             Starts(s.src, s.cur, w) && Next(s, w) == 'E'
    ensures var w := if path.Chain? then MangledPath(path.rest) else "";
            var d := if path.Chain? then SaidPath(path.rest, false, c) else c;
            ScansPrefix(s, RunPrefix(has, s), w, false, c, d)
    decreases path, 1
  {
    hide RunPrefix, ScansPrefix, Starts, GoodPart, GoodTys, MangledPath, SaidPath;
    if path.Chain? {
      PathReads(path.rest, path.part, has, false, s, c);
    } else {
      PrefixStops(has, false, s, c);
    }
  }

  lemma {:induction false} EntityReads(e: Entity, s: St, c: Ctx)
    requires Silent(s) && GoodEntity(e) && Starts(s.src, s.cur, MangledEntity(e)) && Calm(Next(s, MangledEntity(e)))
    ensures Scans(N(Name), s, MangledEntity(e), c, SaidEntity(e, c))
    decreases e, 3
  {
    match e
    case Plain(_, _, _) => PlainReads(e, s, c);
    case Instance(_, _) => InstanceReads(e, s, c);
    case Scoped(r, v, k, path) => ScopedReads(e, r, v, k, path, s, c);
    case Local(enc, name) => LocalReads(e, enc, name, s, c);
    hide *;
  }

  lemma {:induction false} InstanceReads(e: Entity, s: St, c: Ctx)
    requires e.Instance?
    requires Silent(s) && GoodEntity(e) && Starts(s.src, s.cur, MangledEntity(e)) && Calm(Next(s, MangledEntity(e)))
    ensures Scans(N(Name), s, MangledEntity(e), c, SaidEntity(e, c))
    decreases e, 2
  {
    hide RunSym, Scans, Starts, Said, SaidSub, MangledSub, GoodSub, GoodTys, MangledArgs;
    var v, w, b := MangledSub(e.sub), MangledArgs(e.args), SaidSub(e.sub, c);
    StartsSplits(s.src, s.cur, v, w);
    SubIsTemplateName(e.sub, s, c);
    NoUnscopedName(e.sub, s);
    var t := Advance(N(UnscopedTemplateName), s, v, c, b);
    ArgsRead(e.args, t, b);
    InstanceIsName(s, v, w, c, b, Said(b, "<>"));
  }

  lemma {:induction false} PlainReads(e: Entity, s: St, c: Ctx)
    requires e.Plain?
    requires Silent(s) && GoodEntity(e) && Starts(s.src, s.cur, MangledEntity(e)) && Calm(Next(s, MangledEntity(e)))
    ensures Scans(N(Name), s, MangledEntity(e), c, SaidEntity(e, c))
    decreases e, 2
  {
    hide RunSym, Scans, ScansPat, Starts, Said, SaidPart, MangledPart, GoodPart, GoodTys, MangledArgs;
    var v, w := If(e.std, "St") + MangledPart(e.part), MangledArgs(e.args);
    var b := SaidPart(e.part, if e.std then Said(c, "std::") else c);
    StartsSplits(s.src, s.cur, v, w);
    if e.args.NoTypes? {
      NoArgs();
      assert v + w == v;
      UnscopedReads(e, s, c);
      UnscopedIsName(s, v, c, b);
    } else {
      ArgsBegin(e.args);
      UnscopedReads(e, s, c);
      OneReads(N(UnscopedName), s, v, c, b);
      FirstReads(UnscopedTemplateName, One(N(UnscopedName)), s, v, c, b);
      var t := Advance(N(UnscopedTemplateName), s, v, c, b);
      ArgsRead(e.args, t, b);
      InstanceIsName(s, v, w, c, b, Said(b, "<>"));
    }
  }

  lemma {:induction false} UnscopedReads(e: Entity, s: St, c: Ctx)
    requires e.Plain? && Silent(s) && GoodEntity(e)
    requires var v := If(e.std, "St") + MangledPart(e.part);
             Starts(s.src, s.cur, v) && MayFollow(e.part, Next(s, v))
    ensures Peek(s) != 'N' && Peek(s) != 'Z'
    ensures Scans(N(UnscopedName), s, If(e.std, "St") + MangledPart(e.part), c,
                  SaidPart(e.part, if e.std then Said(c, "std::") else c))
    decreases e, 1
  {
    hide RunSym, Scans, Starts, Said, SaidPart, MangledPart, GoodPart, GoodTys;
    var w := MangledPart(e.part);
    assert If(e.std, "St") + w == if e.std then "St" + w else w;
    if e.std {
      StartsSplits(s.src, s.cur, "St", w);
      PeekIs(s, "St");
      var b := Said(c, "std::");
      NameReads(e.part, s.(cur := s.cur + 2), b);
      StdReads(s, w, c, SaidPart(e.part, b));
    } else {
      NameReads(e.part, s, c);
    }
  }

  lemma {:induction false} ScopedReads(e: Entity, r: bool, v: bool, k: bool, path: Path, s: St, c: Ctx)
    requires e == Scoped(r, v, k, path) && Silent(s) && BeginsPath(path.part) && GoodPath(path, NOTHING)
    requires Starts(s.src, s.cur, "N" + (Qualifiers(r, v, k) + (MangledPath(path) + "E")))
    ensures Scans(N(Name), s, "N" + (Qualifiers(r, v, k) + (MangledPath(path) + "E")), c, SaidPath(path, true, c))
    decreases e, 1
  {
    hide RunSym, RunPat, Scans, ScansPat, Starts, GoodPath, MangledPath, SaidPath, Qualifiers;
    var q, w, d := Qualifiers(r, v, k), MangledPath(path), SaidPath(path, true, c);
    StartsSplits(s.src, s.cur, "N", q + (w + "E"));
    StartsSplits(s.src, s.cur + 1, q, w + "E");
    PathBegins(path, NOTHING);
    LitReads("N", s, c);
    var t := LitState("N", s);
    OptionalQualifiers(r, v, k, w, t, c);
    var u := t.(cur := t.cur + |q|);
    WholePathReads(e, path, u, c);
    ThenReads(Opt(CVQualifiers), Two(Prefix, Lit("E")), t, q, w + "E", c, c, d);
    ThenReads(Lit("N"), Three(Opt(CVQualifiers), Prefix, Lit("E")), s, "N", q + (w + "E"), c, c, d);
    ScopedIsName(s, "N" + (q + (w + "E")), c, d);
  }

  lemma {:induction false} WholePathReads(e: Entity, path: Path, s: St, c: Ctx)
    requires e.Scoped? && path == e.path && Silent(s) && GoodPath(path, NOTHING)
    requires Starts(s.src, s.cur, MangledPath(path) + "E")
    ensures ScansPat(Two(Prefix, Lit("E")), s, MangledPath(path) + "E", c, SaidPath(path, true, c))
    decreases e, 0
  {
    hide RunSym, Scans, ScansPat, Starts, GoodPath, MangledPath, SaidPath;
    var w, d := MangledPath(path), SaidPath(path, true, c);
    StartsSplits(s.src, s.cur, w, "E");
    PathReads(path, NOTHING, false, true, s.(nest := 0), c);
    WholePrefix(s, w, c, d);
    var x := Advance(Prefix, s, w, c, d);
    LitReads("E", x, d);
    TwoRead(Prefix, Lit("E"), s, w, "E", c, d, d);
  }

  lemma ScopedIsName(s: St, w: string, c: Ctx, d: Ctx)
    requires ScansPat(Four(Lit("N"), Opt(CVQualifiers), Prefix, Lit("E")), s, w, c, d)
    ensures Scans(N(Name), s, w, c, d)
  {
    hide RunSym, RunPat, Scans, ScansPat;
    FirstReads(NestedName, Four(Lit("N"), Opt(CVQualifiers), Prefix, Lit("E")), s, w, c, d);
    OneReads(N(NestedName), s, w, c, d);
    FirstReads(Name, One(N(NestedName)), s, w, c, d);
  }

  lemma OptionalQualifiers(r: bool, v: bool, k: bool, w: string, s: St, c: Ctx)
    requires Silent(s) && Starts(s.src, s.cur, Qualifiers(r, v, k) + (w + "E"))
    requires w != "" && w[0] != 'r' && w[0] != 'V' && w[0] != 'K'
    ensures Scans(Opt(CVQualifiers), s, Qualifiers(r, v, k), c, c)
    ensures var t := s.(cur := s.cur + |Qualifiers(r, v, k)|);
            RunSym(Opt(CVQualifiers), s).Match? && RunSym(Opt(CVQualifiers), s).st == t && Silent(t)
  {
    hide Starts;
    StartsSplits(s.src, s.cur, Qualifiers(r, v, k), w + "E");
    if r || v || k {
      QualifiersRead(r, v, k, s, c);
      OptionReads(CVQualifiers, s, Qualifiers(r, v, k), c, c);
    } else {
      PeekIs(s, w + "E");
      NoOption(CVQualifiers, s, c);
      SymFails(CVQualifiers, s);
      OptFails(CVQualifiers, s);
    }
  }

  lemma {:induction false} LocalReads(e: Entity, enc: Encoded, name: Entity, s: St, c: Ctx)
    requires e == Local(enc, name) && Silent(s) && GoodEncoded(enc) && GoodEntity(name)
    requires var w := "Z" + (MangledEncoded(enc) + ("E" + MangledEntity(name)));
             Starts(s.src, s.cur, w) && Calm(Next(s, w))
    ensures Scans(N(Name), s, "Z" + (MangledEncoded(enc) + ("E" + MangledEntity(name))), c,
                  SaidEntity(name, Said(SaidEncoded(enc, c), "::")))
    decreases e, 0
  {
    hide Ok, RunSym, RunPat, Scans, ScansPat, Starts, GoodEncoded, MangledEncoded, SaidEncoded, Said;
    hide SaidEntity, MangledEntity, GoodEntity;
    var v, w, b := MangledEncoded(enc), MangledEntity(name), SaidEncoded(enc, c);
    var b1 := Said(b, "::");
    var d := SaidEntity(name, b1);
    Within(s);
    StartsSplits(s.src, s.cur, "Z", v + ("E" + w));
    StartsSplits(s.src, s.cur + 1, v, "E" + w);
    StartsSplits(s.src, s.cur + 1 + |v|, "E", w);
    PeekIs(s, "Z");
    LitReads("Z", s, c);
    var t := LitState("Z", s);
    EncodedReads(enc, t, c);
    var u := Advance(N(Encoding), t, v, c, b);
    LitReads("E", u, b);
    var x := LitState("E", u);
    EmitReads("::", x, b);
    EmitState("::", x);
    EntityReads(name, x, b1);
    var y := Advance(N(Name), x, w, b1, d);
    NoOption(N(Discriminator), y, d);
    LocalIsName(s, t, u, x, v, w, c, b, d);
  }

  lemma LocalIsName(s: St, t: St, u: St, x: St, v: string, w: string, c: Ctx, b: Ctx, d: Ctx)
    requires Silent(s) && Silent(t) && Silent(u) && Silent(x) && Peek(s) == 'Z'
    requires Scans(Lit("Z"), s, "Z", c, c) && t == RunSym(Lit("Z"), s).st
    requires Scans(N(Encoding), t, v, c, b) && u == RunSym(N(Encoding), t).st
    requires Scans(Lit("E"), u, "E", b, b) && x == RunSym(Lit("E"), u).st == RunSym(Emit("::"), x).st
    requires Scans(Emit("::"), x, "", b, Said(b, "::")) && Scans(N(Name), x, w, Said(b, "::"), d)
    requires Scans(Opt(N(Discriminator)), RunSym(N(Name), x).st, "", d, d)
    ensures Scans(N(Name), s, "Z" + (v + ("E" + w)), c, d)
  {
    hide Ok, RunSym, RunPat, Scans, ScansPat, Said;
    var o := Opt(N(Discriminator));
    var p := Three(Emit("::"), N(Name), o);
    TwoRead(N(Name), o, x, w, "", Said(b, "::"), d, d);
    ThenReads(Emit("::"), Two(N(Name), o), x, "", w + "", b, Said(b, "::"), d);
    assert "" + (w + "") == w;
    ThenReads(Lit("E"), p, u, "E", w, b, b, d);
    ThenReads(N(Encoding), Then(Lit("E"), p), t, v, "E" + w, c, b, d);
    ThenReads(Lit("Z"), Then(N(Encoding), Then(Lit("E"), p)), s, "Z", v + ("E" + w), c, c, d);
    EntityIsName(s, "Z" + (v + ("E" + w)), c, d);
  }

  lemma EntityIsName(s: St, w: string, c: Ctx, d: Ctx)
    requires Silent(s) && Peek(s) == 'Z'
    requires ScansPat(Rule(LocalName).first, s, w, c, d)
    ensures Scans(N(Name), s, w, c, d)
  {
    hide Ok, RunSym, RunPat, Scans, ScansPat;
    FirstReads(LocalName, Rule(LocalName).first, s, w, c, d);
    OneReads(N(LocalName), s, w, c, d);
    NoSuch(NestedName, Done, s);
    SecondReads(Name, One(N(LocalName)), s, w, c, d);
  }

  lemma {:induction false} EncodedReads(e: Encoded, s: St, c: Ctx)
    requires Silent(s) && GoodEncoded(e) && Starts(s.src, s.cur, MangledEncoded(e))
    requires Closes(Next(s, MangledEncoded(e)))
    ensures Scans(N(Encoding), s, MangledEncoded(e), c, SaidEncoded(e, c))
    decreases e, 2
  {
    match e
    case Function(_, _) => FunctionReads(e, s, c);
    case Data(_) => DataReads(e, s, c);
    case OfType(_, _) => OfTypeReads(e, s, c);
    case Guard(_) => GuardReads(e, s, c);
    case Thunk(o, target) => ThunkReads(e, o, target, s, c);
    case Covariant(o, r, target) => CovariantReads(e, o, r, target, s, c);
    case Construction(whole, at, base) => ConstructionReads(e, whole, at, base, s, c);
    hide *;
  }

  lemma {:induction false} FunctionReads(e: Encoded, s: St, c: Ctx)
    requires e.Function?
    requires Silent(s) && GoodEncoded(e) && Starts(s.src, s.cur, MangledEncoded(e))
    requires Closes(Next(s, MangledEncoded(e)))
    ensures Scans(N(Encoding), s, MangledEncoded(e), c, SaidEncoded(e, c))
    decreases e, 0
  {
    hide RunSym, Scans, ScansPat, Starts, GoodEntity, MangledEntity, SaidEntity, GoodTys, MangledTys, Said;
    var v, w, b := MangledEntity(e.name), MangledTys(e.params), SaidEntity(e.name, c);
    StartsSplits(s.src, s.cur, v, w);
    TysBegin(e.params, false);
    EntityReads(e.name, s, c);
    var t := Advance(N(Name), s, v, c, b);
    PlusReads(Type, e.params, t);
    ParametersRead(t, w, b);
    TwoRead(N(Name), N(BareFunctionType), s, v, w, c, b, Said(b, "()"));
    FirstReads(Encoding, Two(N(Name), N(BareFunctionType)), s, v + w, c, Said(b, "()"));
  }

  lemma {:induction false} DataReads(e: Encoded, s: St, c: Ctx)
    requires e.Data?
    requires Silent(s) && GoodEncoded(e) && Starts(s.src, s.cur, MangledEncoded(e))
    requires Closes(Next(s, MangledEncoded(e)))
    ensures Scans(N(Encoding), s, MangledEncoded(e), c, SaidEncoded(e, c))
    decreases e, 0
  {
    hide RunSym, RunPat, Scans, ScansPat, Starts, GoodEntity, MangledEntity, SaidEntity;
    var v, d := MangledEntity(e.name), SaidEntity(e.name, c);
    EntityReads(e.name, s, c);
    var t := Advance(N(Name), s, v, c, d);
    SecondFails(N(Name), N(BareFunctionType), Done, s, v, c, d);
    OneReads(N(Name), s, v, c, d);
    SecondReads(Encoding, One(N(Name)), s, v, c, d);
  }

  lemma SpecialIsEncoding(s: St, w: string, c: Ctx, d: Ctx)
    requires Silent(s) && Scans(N(SpecialName), s, w, c, d) && (Peek(s) == 'T' || Peek(s) == 'G')
    ensures Scans(N(Encoding), s, w, c, d)
  {
    hide RunSym, RunPat, Scans, ScansPat;
    OneReads(N(SpecialName), s, w, c, d);
    NoSuch(Name, One(N(BareFunctionType)), s);
    NoSuch(Name, Done, s);
    ThirdReads(Encoding, One(N(SpecialName)), s, w, c, d);
  }

  lemma {:induction false} OfTypeReads(e: Encoded, s: St, c: Ctx)
    requires e.OfType?
    requires Silent(s) && GoodEncoded(e) && Starts(s.src, s.cur, MangledEncoded(e))
    requires Closes(Next(s, MangledEncoded(e)))
    ensures Scans(N(Encoding), s, MangledEncoded(e), c, SaidEncoded(e, c))
    decreases e, 0
  {
    hide RunSym, RunPat, Scans, ScansPat, Starts, GoodTy, MangledTy, SaidTy;
    var y, v, w, d := Class("VTIS"), [e.c], MangledTy(e.of), SaidTy(e.of, c);
    StartsSplits(s.src, s.cur, "T", v + w);
    StartsSplits(s.src, s.cur + 1, v, w);
    PeekIs(s, "T");
    LitReads("T", s, c);
    var t := LitState("T", s);
    ClassReads("VTIS", e.c, t, c);
    ClassState("VTIS", e.c, t);
    TyReads(e.of, t.(cur := t.cur + 1), c);
    TwoRead(y, N(Type), t, v, w, c, c, d);
    ThenReads(Lit("T"), Two(y, N(Type)), s, "T", v + w, c, c, d);
    FirstReads(SpecialName, Three(Lit("T"), y, N(Type)), s, "T" + (v + w), c, d);
    SpecialIsEncoding(s, "T" + (v + w), c, d);
  }

  lemma {:induction false} GuardReads(e: Encoded, s: St, c: Ctx)
    requires e.Guard?
    requires Silent(s) && GoodEncoded(e) && Starts(s.src, s.cur, MangledEncoded(e))
    requires Closes(Next(s, MangledEncoded(e)))
    ensures Scans(N(Encoding), s, MangledEncoded(e), c, SaidEncoded(e, c))
    decreases e, 0
  {
    hide RunSym, RunPat, Scans, ScansPat, Starts, GoodEntity, MangledEntity, SaidEntity;
    var w, d := MangledEntity(e.name), SaidEntity(e.name, c);
    StartsSplits(s.src, s.cur, "GV", w);
    PeekIs(s, "GV");
    LitReads("GV", s, c);
    var t := LitState("GV", s);
    EntityReads(e.name, t, c);
    TwoRead(Lit("GV"), N(Name), s, "GV", w, c, c, d);
    Unread(Lit("T"), Two(Class("VTIS"), N(Type)), s);
    Unread(Lit("Tc"), Three(N(CallOffset), N(CallOffset), N(Encoding)), s);
    ThirdReads(SpecialName, Two(Lit("GV"), N(Name)), s, "GV" + w, c, d);
    SpecialIsEncoding(s, "GV" + w, c, d);
  }

  // ---------- thunks and tables ----------

  lemma OffsetReads(o: Offset, s: St, c: Ctx)
    requires Silent(s) && Starts(s.src, s.cur, MangledOffset(o))
    ensures Scans(N(CallOffset), s, MangledOffset(o), c, c)
  {
    hide RunSym, RunPat, Scans, ScansPat, Starts, SignedNumber, Digit;
    var w := MangledOffset(o);
    LetterIsNoDigit();
    if o.Fixed? {
      var n := SignedNumber(o.n);
      StartsSplits(s.src, s.cur, "h", n + "_");
      StartsSplits(s.src, s.cur + 1, n, "_");
      LitReads("h", s, c);
      var t := LitState("h", s);
      SignedRead(o.n, t, c);
      OneReads(NUMBER, t, n, c, c);
      FirstReads(NVOffset, One(NUMBER), t, n, c, c);
      var u := Advance(N(NVOffset), t, n, c, c);
      LitReads("_", u, c);
      TwoRead(N(NVOffset), Lit("_"), t, n, "_", c, c, c);
      ThenReads(Lit("h"), Two(N(NVOffset), Lit("_")), s, "h", n + "_", c, c, c);
      FirstReads(CallOffset, Three(Lit("h"), N(NVOffset), Lit("_")), s, w, c, c);
    } else {
      VirtualReads(o, s, c);
    }
  }

  lemma VirtualReads(o: Offset, s: St, c: Ctx)
    requires o.Virtual? && Silent(s) && Starts(s.src, s.cur, MangledOffset(o))
    ensures Scans(N(CallOffset), s, MangledOffset(o), c, c)
  {
    hide Ok, RunSym, RunPat, Scans, ScansPat, Starts, SignedNumber, Digit;
    var v := SignedNumber(o.n) + ("_" + SignedNumber(o.at));
    Within(s);
    StartsSplits(s.src, s.cur, "v", v + "_");
    StartsSplits(s.src, s.cur + 1, v, "_");
    PeekIs(s, "v");
    LitReads("v", s, c);
    var t := LitState("v", s);
    LetterIsNoDigit();
    TwoNumbersRead(o.n, o.at, t, c);
    var y := Advance(N(VOffset), t, v, c, c);
    LitReads("_", y, c);
    TwoRead(N(VOffset), Lit("_"), t, v, "_", c, c, c);
    ThenReads(Lit("v"), Two(N(VOffset), Lit("_")), s, "v", v + "_", c, c, c);
    VirtualIsOffset(s, "v" + (v + "_"), c);
  }

  lemma VirtualIsOffset(s: St, w: string, c: Ctx)
    requires Silent(s) && Peek(s) == 'v' && ScansPat(Three(Lit("v"), N(VOffset), Lit("_")), s, w, c, c)
    ensures Scans(N(CallOffset), s, w, c, c)
  {
    hide Ok, RunPat, Scans, ScansPat;
    Unread(Lit("h"), Two(N(NVOffset), Lit("_")), s);
    SecondReads(CallOffset, Three(Lit("v"), N(VOffset), Lit("_")), s, w, c, c);
  }

  lemma TwoNumbersRead(a: int, b: int, s: St, c: Ctx)
    requires Silent(s) && Starts(s.src, s.cur, SignedNumber(a) + ("_" + SignedNumber(b)))
    requires Digit(Decimal, Next(s, SignedNumber(a) + ("_" + SignedNumber(b)))) < 0
    ensures Scans(N(VOffset), s, SignedNumber(a) + ("_" + SignedNumber(b)), c, c)
  {
    hide Ok, RunSym, RunPat, Scans, ScansPat, Starts, SignedNumber, Digit;
    var n, m := SignedNumber(a), SignedNumber(b);
    Within(s);
    LetterIsNoDigit();
    StartsSplits(s.src, s.cur, n, "_" + m);
    StartsSplits(s.src, s.cur + |n|, "_", m);
    SignedRead(a, s, c);
    var u := Advance(NUMBER, s, n, c, c);
    LitReads("_", u, c);
    var x := LitState("_", u);
    SignedRead(b, x, c);
    TwoRead(Lit("_"), NUMBER, u, "_", m, c, c, c);
    ThenReads(NUMBER, Two(Lit("_"), NUMBER), s, n, "_" + m, c, c, c);
    FirstReads(VOffset, Three(NUMBER, Lit("_"), NUMBER), s, n + ("_" + m), c, c);
  }

  lemma OffsetBegins(o: Offset)
    ensures MangledOffset(o) != "" && (MangledOffset(o)[0] == 'h' || MangledOffset(o)[0] == 'v')
  {
    hide SignedNumber;
  }

  lemma {:induction false} ThunkReads(e: Encoded, o: Offset, target: Encoded, s: St, c: Ctx)
    requires e == Thunk(o, target) && Silent(s) && GoodEncoded(target)
    requires var w := "T" + (MangledOffset(o) + MangledEncoded(target)); Starts(s.src, s.cur, w) && Closes(Next(s, w))
    ensures Scans(N(Encoding), s, "T" + (MangledOffset(o) + MangledEncoded(target)), c, SaidEncoded(target, c))
    decreases e, 0
  {
    hide Ok, RunSym, RunPat, Scans, ScansPat, Starts, GoodEncoded, MangledEncoded, SaidEncoded, MangledOffset;
    var v, w, d := MangledOffset(o), MangledEncoded(target), SaidEncoded(target, c);
    Within(s);
    StartsSplits(s.src, s.cur, "T", v + w);
    StartsSplits(s.src, s.cur + 1, v, w);
    PeekIs(s, "T");
    LitReads("T", s, c);
    var t := LitState("T", s);
    OffsetReads(o, t, c);
    var u := Advance(N(CallOffset), t, v, c, c);
    EncodedReads(target, u, c);
    TwoRead(N(CallOffset), N(Encoding), t, v, w, c, c, d);
    ThenReads(Lit("T"), Two(N(CallOffset), N(Encoding)), s, "T", v + w, c, c, d);
    OffsetBegins(o);
    PeekIs(t, v);
    ThunkIsSpecial(s, t, "T" + (v + w), c, d);
    SpecialIsEncoding(s, "T" + (v + w), c, d);
  }

  /** The alternatives of a special name from the thunk on. */
  function ThunkOn(): Alts { Or(Three(Lit("T"), N(CallOffset), N(Encoding)), SpecialNameExtensions()) }

  lemma SpecialTail(s: St, t: St, w: string, c: Ctx, d: Ctx)
    requires Silent(s) && Starts(s.src, s.cur, "T") && Silent(t) && t == s.(cur := s.cur + 1)
    requires Peek(t) == 'h' || Peek(t) == 'v' || Peek(t) == 'C'
    requires ScansFrom(SpecialName, ThunkOn(), s, w, c, d)
    ensures Scans(N(SpecialName), s, w, c, d)
  {
    hide RunPat, Scans, ScansFrom, Starts, Descends, SpecialNameExtensions, Ok;
    NoTable(s, t);
    NoLeftRecursion(SpecialName);
    var p, q, r := Three(Lit("T"), Class("VTIS"), N(Type)), Four(Lit("Tc"), N(CallOffset), N(CallOffset), N(Encoding)),
                   Two(Lit("GV"), N(Name));
    FourthFrom(SpecialName, p, q, r, ThunkOn(), s, w, c, d);
    RuleReads(SpecialName, s, w, c, d);
  }

  lemma NoTable(s: St, t: St)
    requires Silent(s) && Starts(s.src, s.cur, "T") && Silent(t) && t == s.(cur := s.cur + 1)
    requires Peek(t) == 'h' || Peek(t) == 'v' || Peek(t) == 'C'
    ensures RunPat(Three(Lit("T"), Class("VTIS"), N(Type)), s).NoMatch?
    ensures RunPat(Four(Lit("Tc"), N(CallOffset), N(CallOffset), N(Encoding)), s).NoMatch?
    ensures RunPat(Two(Lit("GV"), N(Name)), s).NoMatch?
  {
    hide RunSym, RunPat, Scans, Starts, Ok;
    var c := Ctx("", "");
    Within(s);
    NotThese(s);
    LitReads("T", s, c);
    var x := LitState("T", s);
    NoLetterOfTable(x);
    SecondFails(Lit("T"), Class("VTIS"), One(N(Type)), s, "T", c, c);
    LitFails("Tc", Three(N(CallOffset), N(CallOffset), N(Encoding)), s);
    PeekIs(s, "T");
    Unread(Lit("GV"), One(N(Name)), s);
  }

  lemma NoLetterOfTable(s: St)
    requires Ok(s) && (Peek(s) == 'h' || Peek(s) == 'v' || Peek(s) == 'C')
    ensures !BeginsSym(Class("VTIS"), Peek(s))
  {
  }

  lemma ThunksDescend()
    ensures Descends(ThunkOn(), Level(SpecialName)) && Descends(SpecialNameExtensions(), Level(SpecialName))
  {
    hide Descends;
    NoLeftRecursion(SpecialName);
    ThreeFurther(Rule(SpecialName), Level(SpecialName));
    RestDescends(ThunkOn(), Level(SpecialName));
  }

  lemma ThunkIsSpecial(s: St, t: St, w: string, c: Ctx, d: Ctx)
    requires Silent(s) && Starts(s.src, s.cur, "T") && Silent(t) && t == s.(cur := s.cur + 1)
    requires Peek(t) == 'h' || Peek(t) == 'v'
    requires ScansPat(Three(Lit("T"), N(CallOffset), N(Encoding)), s, w, c, d)
    ensures Scans(N(SpecialName), s, w, c, d)
  {
    hide RunSym, RunPat, RunAlts, Scans, ScansPat, ScansFrom, Starts, Descends, SpecialNameExtensions;
    ThunksDescend();
    HereReads(SpecialName, ThunkOn(), Three(Lit("T"), N(CallOffset), N(Encoding)), s, w, c, d);
    SpecialTail(s, t, w, c, d);
  }

  /** The second letter tells the special names apart. */
  lemma NotThese(s: St)
    requires Silent(s)
    ensures CharAt(s.src, s.cur + 1) != 'c' ==> !Starts(s.src, s.cur, "Tc")
  {
    if Starts(s.src, s.cur, "Tc") { assert s.src[s.cur..s.cur + 2][1] == s.src[s.cur + 1]; }
  }

  lemma {:induction false} CovariantReads(e: Encoded, o: Offset, r: Offset, target: Encoded, s: St, c: Ctx)
    requires e == Covariant(o, r, target) && Silent(s) && GoodEncoded(target)
    requires var w := "Tc" + (MangledOffset(o) + (MangledOffset(r) + MangledEncoded(target)));
             Starts(s.src, s.cur, w) && Closes(Next(s, w))
    ensures Scans(N(Encoding), s, "Tc" + (MangledOffset(o) + (MangledOffset(r) + MangledEncoded(target))), c,
                  SaidEncoded(target, c))
    decreases e, 0
  {
    hide Ok, RunSym, RunPat, Scans, ScansPat, Starts, GoodEncoded, MangledEncoded, SaidEncoded, MangledOffset;
    var x, v, w, d := MangledOffset(o), MangledOffset(r), MangledEncoded(target), SaidEncoded(target, c);
    Within(s);
    StartsSplits(s.src, s.cur, "Tc", x + (v + w));
    StartsSplits(s.src, s.cur + 2, x, v + w);
    StartsSplits(s.src, s.cur + 2 + |x|, v, w);
    PeekIs(s, "Tc");
    LitReads("Tc", s, c);
    var t := LitState("Tc", s);
    OffsetReads(o, t, c);
    var u := Advance(N(CallOffset), t, x, c, c);
    OffsetReads(r, u, c);
    var y := Advance(N(CallOffset), u, v, c, c);
    EncodedReads(target, y, c);
    TwoRead(N(CallOffset), N(Encoding), u, v, w, c, c, d);
    ThenReads(N(CallOffset), Two(N(CallOffset), N(Encoding)), t, x, v + w, c, c, d);
    ThenReads(Lit("Tc"), Three(N(CallOffset), N(CallOffset), N(Encoding)), s, "Tc", x + (v + w), c, c, d);
    CovariantIsSpecial(s, "Tc" + (x + (v + w)), c, d);
    SpecialIsEncoding(s, "Tc" + (x + (v + w)), c, d);
  }

  lemma CovariantIsSpecial(s: St, w: string, c: Ctx, d: Ctx)
    requires Silent(s) && Starts(s.src, s.cur, "Tc")
    requires ScansPat(Four(Lit("Tc"), N(CallOffset), N(CallOffset), N(Encoding)), s, w, c, d)
    ensures Scans(N(SpecialName), s, w, c, d)
  {
    hide RunSym, RunPat, Scans, ScansPat, Starts;
    assert "T" + "c" == "Tc";
    StartsSplits(s.src, s.cur, "T", "c");
    LitReads("T", s, c);
    var t := LitState("T", s);
    SecondFails(Lit("T"), Class("VTIS"), One(N(Type)), s, "T", c, c);
    SecondReads(SpecialName, Four(Lit("Tc"), N(CallOffset), N(CallOffset), N(Encoding)), s, w, c, d);
  }

  lemma {:induction false} ConstructionReads(e: Encoded, whole: Ty, at: nat, base: Ty, s: St, c: Ctx)
    requires e == Construction(whole, at, base) && Silent(s) && GoodTy(whole) && GoodTy(base)
    requires var w := "TC" + (MangledTy(whole) + (Digits(at, 10) + ("_" + MangledTy(base))));
             Starts(s.src, s.cur, w) && Closes(Next(s, w))
    ensures Scans(N(Encoding), s, "TC" + (MangledTy(whole) + (Digits(at, 10) + ("_" + MangledTy(base)))), c,
                  SaidTy(whole, c))
    decreases e, 1
  {
    hide Ok, RunSym, RunPat, Scans, ScansPat, Starts, GoodTy, MangledTy, SaidTy, Digits;
    var v, u, d := MangledTy(whole), Digits(at, 10) + ("_" + MangledTy(base)), SaidTy(whole, c);
    var p := Four(N(Type), NUMBER, Lit("_"), Quiet(One(N(Type))));
    Within(s);
    StartsSplits(s.src, s.cur, "TC", v + u);
    StartsSplits(s.src, s.cur + 2, v, u);
    PeekIs(s, "TC");
    DigitsBegin(at);
    LitReads("TC", s, c);
    var t := LitState("TC", s);
    TyReads(whole, t, c);
    var x := Advance(N(Type), t, v, c, d);
    BaseReads(e, at, base, x, d);
    ThenReads(N(Type), p.tail, t, v, u, c, d, d);
    ThenReads(Lit("TC"), p, s, "TC", v + u, c, c, d);
    ConstructionIsSpecial(s, "TC" + (v + u), c, d);
    SpecialIsEncoding(s, "TC" + (v + u), c, d);
  }

  lemma {:induction false} BaseReads(e: Encoded, at: nat, base: Ty, s: St, c: Ctx)
    requires e.Construction? && base == e.base && Silent(s) && GoodTy(base)
    requires var w := Digits(at, 10) + ("_" + MangledTy(base)); Starts(s.src, s.cur, w) && Closes(Next(s, w))
    ensures ScansPat(Three(NUMBER, Lit("_"), Quiet(One(N(Type)))), s, Digits(at, 10) + ("_" + MangledTy(base)), c, c)
    decreases e, 0
  {
    hide Ok, RunSym, RunPat, Scans, ScansPat, Starts, GoodTy, MangledTy, SaidTy, Digits;
    var n, w, q := Digits(at, 10), MangledTy(base), One(N(Type));
    var x, y := PlaceReads(at, w, s, c);
    TyReads(base, y, c);
    OneReads(N(Type), y, w, c, SaidTy(base, c));
    PatPast(q, y, w, c, SaidTy(base, c));
    QuietReads(q, y, w, c);
    TwoRead(Lit("_"), Quiet(q), x, "_", w, c, c, c);
    ThenReads(NUMBER, Two(Lit("_"), Quiet(q)), s, n, "_" + w, c, c, c);
  }

  /** A number and an underscore, and the states behind them. */
  lemma PlaceReads(n: nat, w: string, s: St, c: Ctx) returns (x: St, y: St)
    requires Silent(s) && Starts(s.src, s.cur, Digits(n, 10) + ("_" + w))
    ensures Scans(NUMBER, s, Digits(n, 10), c, c) && x == RunSym(NUMBER, s).st
    ensures Scans(Lit("_"), x, "_", c, c) && y == RunSym(Lit("_"), x).st
    ensures Silent(y) && y.src == s.src && y.cur == s.cur + |Digits(n, 10)| + 1 && Starts(y.src, y.cur, w)
  {
    hide Ok, RunSym, Scans, Starts, Digits, Digit;
    Within(s);
    StartsSplits(s.src, s.cur, Digits(n, 10), "_" + w);
    StartsSplits(s.src, s.cur + |Digits(n, 10)|, "_", w);
    UnderscoreIsNoDigit(Decimal);
    DigitsRead(Decimal, n, s, c);
    x := Advance(NUMBER, s, Digits(n, 10), c, c);
    LitReads("_", x, c);
    y := LitState("_", x);
  }

  lemma ConstructionIsSpecial(s: St, w: string, c: Ctx, d: Ctx)
    requires Silent(s) && Starts(s.src, s.cur, "TC")
    requires ScansPat(Then(Lit("TC"), Four(N(Type), NUMBER, Lit("_"), Quiet(One(N(Type))))), s, w, c, d)
    ensures Scans(N(SpecialName), s, w, c, d)
  {
    hide RunSym, RunPat, RunAlts, Scans, ScansPat, ScansFrom, Starts, Descends;
    assert "T" + "C" == "TC";
    StartsSplits(s.src, s.cur, "T", "C");
    LitReads("T", s, c);
    var t := LitState("T", s);
    PeekIs(t, "C");
    SecondFails(Lit("T"), N(CallOffset), One(N(Encoding)), s, "T", c, c);
    ThunksDescend();
    HereReads(SpecialName, SpecialNameExtensions(),
              Then(Lit("TC"), Four(N(Type), NUMBER, Lit("_"), Quiet(One(N(Type))))), s, w, c, d);
    SkipReads(SpecialName, ThunkOn(), s, w, c, d);
    SpecialTail(s, t, w, c, d);
  }

  // ---------- symbols ----------

  lemma VersionReads(version: string, s: St, c: Ctx)
    requires Silent(s) && IsVersion(version) && s.src[s.cur..] == version
    ensures Scans(Suffix, s, version, c, Said(c, version))
  {
    assert Starts(s.src, s.cur, version) && s.cur + |version| == |s.src|;
    assert version != "" ==> s.src[s.cur..s.cur + 1] == version[..1] == "@";
    assert version == "" ==> s.cur == |s.src|;
    TerminalReads(Suffix, s, version, c);
    hide RunSym, Scans;
  }

  /** With printing off the whole symbol is read. */
  lemma SymbolReads(e: Encoded, version: string, s: St, c: Ctx)
    requires GoodEncoded(e) && IsVersion(version) && Silent(s) && s.src == Mangled(e, version) && s.cur == 0
    ensures Scans(N(MangledName), s, s.src, c, Said(SaidEncoded(e, c), version))
  {
    hide RunSym, Scans, ScansPat, Starts, GoodEncoded, MangledEncoded, SaidEncoded, Said;
    var w, b := MangledEncoded(e), SaidEncoded(e, c);
    var d := Said(b, version);
    WholeStarts(s.src);
    StartsSplits(s.src, 0, "_Z", w + version);
    StartsSplits(s.src, 2, w, version);
    LitReads("_Z", s, c);
    var t := LitState("_Z", s);
    assert version == "" ==> 2 + |w| == |s.src|;
    EncodedReads(e, t, c);
    var u := Advance(N(Encoding), t, w, c, b);
    assert s.src[2 + |w|..] == version;
    VersionReads(version, u, b);
    TwoRead(N(Encoding), Suffix, t, w, version, c, b, d);
    ThenReads(Lit("_Z"), Two(N(Encoding), Suffix), s, "_Z", w + version, c, c, d);
    FirstReads(MangledName, Three(Lit("_Z"), N(Encoding), Suffix), s, s.src, c, d);
  }

  lemma WholeStarts(src: string)
    ensures Starts(src, 0, src)
  {
    assert src[0..|src|] == src;
  }

  /** The run of the whole symbol, with printing on: it reads everything, and its derivation says what the name is
      shown as. */
  lemma SymbolIsShown(e: Encoded, version: string, buf: seq<char>)
    requires GoodEncoded(e) && IsVersion(version) && buf != []
    ensures var m := Mangled(e, version); var r := RunNt(MangledName, Initial(m, buf));
            r.Match? && r.st.cur == |m|
            && Spell(N(MangledName), r.tree, Ctx("", "")).text == EncodedText(e) + version
  {
    hide RunNt, Spell, GoodEncoded, EncodedText, Mangled, IsVersion;
    var s := Initial(Mangled(e, version), buf);
    var t := s.(append := false);
    SilentSymbol(e, version, t);
    NtAlike(MangledName, s, t);
  }

  lemma SilentSymbol(e: Encoded, version: string, s: St)
    requires GoodEncoded(e) && IsVersion(version) && Silent(s) && s.src == Mangled(e, version) && s.cur == 0
    ensures var r := RunNt(MangledName, s);
            r.Match? && r.st.cur == |s.src|
            && Spell(N(MangledName), r.tree, Ctx("", "")).text == EncodedText(e) + version
  {
    hide RunNt, RunSym, Spell, Said, GoodEncoded, SaidEncoded, EncodedText, Mangled, Scans, Ok;
    var c := Ctx("", "");
    var d := Said(SaidEncoded(e, c), version);
    SymbolReads(e, version, s, c);
    var u := Advance(N(MangledName), s, s.src, c, d);
    NtSym(MangledName, s);
    ScansSays(N(MangledName), s, s.src, c, d);
    EncodedShown(e, c);
    PlainSaid(SaidEncoded(e, c), version);
    assert c.text + EncodedText(e) + version == EncodedText(e) + version;
  }

  lemma ScansSays(y: Sym, s: St, w: string, c: Ctx, d: Ctx)
    requires Scans(y, s, w, c, d)
    ensures RunSym(y, s).Match? && Spell(y, RunSym(y, s).tree, c) == d
  {
  }
}
