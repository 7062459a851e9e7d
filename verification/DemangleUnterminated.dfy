/** A name whose demangled text has no NUL behind it: "_ZZ1aEZ0Es". A separator that is written for a name that then
    fails is taken back, but stays in the buffer, and the empty name "0" writes nothing over it. */
module DemangleUnterminated {
  import opened DemangleGrammar
  import opened DemangleSpec
  import opened DemangleLookahead
  import opened DemangleLength
  import opened DemangleBuffer

  const NAME := "_ZZ1aEZ0Es"

  /** The run stands at cur and has printed text; there is room. */
  predicate Stands(s: St, cur: nat, text: string) {
    Ok(s) && s.src == NAME && s.cur == cur && s.append && !s.out.overflowed && |s.out.buf| >= 16
    && s.out.cur == |text| && s.out.buf[..|text|] == text
  }

  // ---------- steps ----------

  lemma RestoreStands(s: St, t: St, cur: nat, text: string)
    requires Stands(s, cur, text) && Ok(t) && |t.out.buf| == |s.out.buf| && t.out.buf[..|text|] == text
    ensures Stands(Restore(s, t), cur, text)
  {
  }

  lemma LitStep(w: string, s: St)
    requires Ok(s) && Starts(s.src, s.cur, w)
    ensures RunSym(Lit(w), s) == Match(s.(cur := s.cur + |w|), Text(w))
  {
    TerminalUnfolds(Lit(w), s);
  }

  lemma EmitStep(s: St, cur: nat, text: string)
    requires Stands(s, cur, text) && |text| <= 3
    ensures var r := RunSym(Emit("::"), s);
            r.Match? && Stands(r.st, cur, text + "::") && r.st.out.buf[..|text|] == text && r.st.out.buf[|text|] == ':'
            && |r.st.out.buf| == |s.out.buf|
  {
    TerminalUnfolds(Emit("::"), s);
    hide RunSym;
    SeparatorText(s.out, text);
  }

  lemma SeparatorText(o: Out, text: string)
    requires OkOut(o) && !o.overflowed && |o.buf| >= 16 && o.cur == |text| <= 3 && o.buf[..|text|] == text
    ensures var t := Say(o, "::");
            !t.overflowed && t.cur == |text| + 2 && t.buf[..t.cur] == text + "::"
            && t.buf[..|text|] == text && t.buf[|text|] == ':'
  {
    var o1 := Put(o, ':');
    var o2 := Put(o1, ':');
    assert "::"[1..] == ":" && ":"[1..] == "";
    assert Append(o, "::") == Append(o1, ":") == Append(o2, "") == Terminate(o2);
  }

  /** An optional discriminator that is not there. */
  lemma NoDiscriminator(s: St)
    requires Ok(s) && Peek(s) != '_'
    ensures RunSym(Opt(N(Discriminator)), s) == Match(s, Eps)
  {
    hide RunNt;
    NtFails(Discriminator, s);
    NtSym(Discriminator, s);
    OptFails(N(Discriminator), s);
  }

  // ---------- names that are a digit and so many letters ----------

  lemma OneDigit(s: St, ch: char)
    requires Ok(s) && s.cur + 1 < |s.src| && s.src[s.cur] == ch && '0' <= ch <= '9'
    requires Digit(Decimal, s.src[s.cur + 1]) < 0
    ensures var r := RunNumeral(Decimal, s);
            r.Match? && r.st == s.(cur := s.cur + 1, number := ch as int - '0' as int)
  {
    var w := s.src[s.cur..s.cur + 1];
    assert w == [ch] && w[..0] == "" && Value(Decimal, w) == Digit(Decimal, ch);
    assert DigitsEnd(Decimal, s.src, s.cur + 1) == s.cur + 1;
    assert DigitsEnd(Decimal, s.src, s.cur) == s.cur + 1;
    assert Skip(s, 'n') == s;
  }

  lemma EmptyName(s: St, text: string)
    requires Stands(s, 7, text)
    ensures var r := RunNt(SourceName, s); r.Match? && r.st == s.(cur := 8, number := -1)
  {
    OneDigit(s, '0');
    SourceNameUnfolds(s);
    hide RunNt, RunNumeral;
    assert s.src[8..8] == "";
  }

  lemma LetterName(s: St)
    requires Stands(s, 3, "")
    ensures var r := RunNt(SourceName, s); r.Match? && Stands(r.st, 5, "a")
  {
    hide RunNt, RunNumeral, Print;
    OneDigit(s, '1');
    SourceNameUnfolds(s);
    var t := s.(cur := 4, number := 1);
    assert s.src[4..5] == "a" && IdentifierText("a") == "a";
    LetterText(t);
  }

  lemma LetterText(s: St)
    requires Stands(s, 4, "")
    ensures Stands(Print(s, "a"), 4, "a")
  {
    var o := Remember(s.out, 'a', 1);
    assert "a"[1..] == "";
    assert Append(o, "a") == Terminate(Put(o, 'a'));
  }

  lemma UnscopedAtDigit(s: St)
    requires Ok(s) && IsDigit(Peek(s)) && RunNt(SourceName, s).Match?
    ensures RunNt(UnscopedName, s).Match? && RunNt(UnscopedName, s).st == RunNt(SourceName, s).st
  {
    hide RunNt, RunAlts, RunPat, RunSym;
    var alts := Rule(UnqualifiedName);
    NtUnfolds(UnqualifiedName, s);
    PatFails(alts.first, s);
    NextAlternative(UnqualifiedName, alts, s);
    PatFails(alts.rest.first, s);
    NextAlternative(UnqualifiedName, alts.rest, s);
    NtSym(SourceName, s);
    OneMatches(N(SourceName), s);
    AlternativeMatches(UnqualifiedName, alts.rest.rest, s);
    FirstMatches(UnscopedName, UnqualifiedName, s);
  }

  lemma FirstMatches(n: Nonterminal, m: Nonterminal, s: St)
    requires Ok(s) && Rule(n).Or? && Rule(n).first == One(N(m)) && RunNt(m, s).Match?
    ensures RunNt(n, s).Match? && RunNt(n, s).st == RunNt(m, s).st
  {
    hide RunNt, RunAlts, RunPat, RunSym, Rule;
    NtUnfolds(n, s);
    NtSym(m, s);
    OneMatches(N(m), s);
    AlternativeMatches(n, Rule(n), s);
  }

  /** The first two alternatives of a name fail and write nothing. */
  lemma NeitherNestedNorLocal(s: St)
    requires Ok(s) && Peek(s) != 'N' && Peek(s) != 'Z'
    ensures var alts := Rule(Name);
            Descends(alts.rest.rest, Level(Name)) && RunAlts(Name, alts, s) == RunAlts(Name, alts.rest.rest, s)
    ensures var r := RunAlts(Name, Rule(Name), s);
            RunNt(Name, s) == if r.NoMatch? then NoMatch(Restore(s, r.st)) else r
  {
    hide RunNt, RunAlts, RunPat, RunSym;
    var alts := Rule(Name);
    NtUnfolds(Name, s);
    PatFails(alts.first, s);
    NextAlternative(Name, alts, s);
    PatFails(alts.rest.first, s);
    NextAlternative(Name, alts.rest, s);
  }

  /** A name that is a source name and not a template is read twice, the second time as an unscoped name. */
  lemma NameAtDigit(s: St, t: St, u: St)
    requires Ok(s) && IsDigit(Peek(s)) && RunNt(SourceName, s).Match? && RunNt(SourceName, s).st == t && Peek(t) != 'I'
    requires u == Restore(s, t) && RunNt(SourceName, u).Match?
    ensures RunNt(Name, s).Match? && RunNt(Name, s).st == RunNt(SourceName, u).st
  {
    hide RunNt, RunAlts, RunPat, RunSym;
    var alts := Rule(Name);
    NeitherNestedNorLocal(s);
    TemplateFails(s, t);
    AltsUnfold(Name, alts.rest.rest, s);
    UnscopedAtDigit(u);
    NtSym(UnscopedName, u);
    OneMatches(N(UnscopedName), u);
    AlternativeMatches(Name, alts.rest.rest.rest, u);
  }

  lemma TemplateFails(s: St, t: St)
    requires Ok(s) && IsDigit(Peek(s)) && RunNt(SourceName, s).Match? && RunNt(SourceName, s).st == t && Peek(t) != 'I'
    ensures RunPat(Two(N(UnscopedTemplateName), N(TemplateArgs)), s) == NoMatch(t)
  {
    hide RunNt, RunPat, RunSym;
    UnscopedAtDigit(s);
    FirstMatches(UnscopedTemplateName, UnscopedName, s);
    NtSym(UnscopedTemplateName, s);
    PatUnfolds(Two(N(UnscopedTemplateName), N(TemplateArgs)), s);
    NtFails(TemplateArgs, t);
    NtSym(TemplateArgs, t);
    OneFails(N(TemplateArgs), t);
  }

  // ---------- the parts of the name ----------

  /** No type and no template arguments begin with 'E' or at the end. */
  lemma NoSignature(s: St)
    requires Ok(s) && (Peek(s) == 'E' || Peek(s) == '\0')
    ensures RunSym(N(BareFunctionType), s) == NoMatch(s)
  {
    hide RunNt;
    NtFails(BareFunctionType, s);
    NtSym(BareFunctionType, s);
  }

  /** An encoding without a signature is a name that is read twice. */
  lemma EncodingIsName(s: St, t: St, u: St)
    requires Ok(s) && RunNt(Name, s).Match? && RunNt(Name, s).st == t && (Peek(t) == 'E' || Peek(t) == '\0')
    requires u == Restore(s, t) && RunNt(Name, u).Match?
    ensures RunNt(Encoding, s).Match? && RunNt(Encoding, s).st == RunNt(Name, u).st
  {
    hide RunNt, RunAlts, RunPat, RunSym;
    var alts := Rule(Encoding);
    var p := Two(N(Name), N(BareFunctionType));
    NtUnfolds(Encoding, s);
    NtSym(Name, s);
    PatUnfolds(p, s);
    NoSignature(t);
    OneFails(N(BareFunctionType), t);
    AltsUnfold(Encoding, alts, s);
    NtSym(Name, u);
    OneMatches(N(Name), u);
    AlternativeMatches(Encoding, alts.rest, u);
  }

  lemma EmptyEncoding(s: St, text: string)
    requires Stands(s, 7, text)
    ensures var r := RunNt(Encoding, s); r.Match? && r.st == s.(cur := 8, number := -1)
  {
    hide RunNt;
    EmptyName(s, text);
    var t := s.(cur := 8, number := -1);
    assert Restore(s, t) == s;
    NameAtDigit(s, t, s);
    EncodingIsName(s, t, s);
  }

  lemma LetterEncoding(s: St)
    requires Stands(s, 3, "")
    ensures var r := RunNt(Encoding, s); r.Match? && Stands(r.st, 5, "a")
  {
    hide RunNt;
    LetterNames(s);
    var t := RunNt(Name, s).st;
    RestoreStands(s, t, 3, "");
    LetterNames(Restore(s, t));
    EncodingIsName(s, t, Restore(s, t));
  }

  lemma LetterNames(s: St)
    requires Stands(s, 3, "")
    ensures var r := RunNt(Name, s); r.Match? && Stands(r.st, 5, "a") && |r.st.out.buf| == |s.out.buf|
  {
    hide RunNt;
    LetterName(s);
    var t := RunNt(SourceName, s).st;
    assert |t.out.buf| == |s.out.buf|;
    RestoreStands(s, t, 3, "");
    LetterName(Restore(s, t));
    NameAtDigit(s, t, Restore(s, t));
  }

  /** At the last character no name can be read. */
  lemma NoNameAtEnd(s: St, text: string)
    requires Stands(s, 9, text)
    ensures RunNt(Name, s) == NoMatch(s)
  {
    hide RunNt, RunAlts, RunPat, RunSym;
    NoUnscopedName(s, text);
    var alts := Rule(Name);
    NeitherNestedNorLocal(s);
    NoTemplateName(s, text);
    NtSym(UnscopedTemplateName, s);
    PatUnfolds(alts.rest.rest.first, s);
    NextAlternative(Name, alts.rest.rest, s);
    NtSym(UnscopedName, s);
    OneFails(N(UnscopedName), s);
    AltsUnfold(Name, alts.rest.rest.rest, s);
  }

  lemma NoTemplateName(s: St, text: string)
    requires Stands(s, 9, text)
    ensures RunNt(UnscopedTemplateName, s) == NoMatch(s)
  {
    hide RunNt, RunAlts, RunPat, RunSym;
    NoUnscopedName(s, text);
    var alts := Rule(UnscopedTemplateName);
    NtUnfolds(UnscopedTemplateName, s);
    NtSym(UnscopedName, s);
    OneFails(N(UnscopedName), s);
    NextAlternative(UnscopedTemplateName, alts, s);
    PatFails(alts.rest.first, s);
    AltsUnfold(UnscopedTemplateName, alts.rest, s);
  }

  lemma NoUnscopedName(s: St, text: string)
    requires Stands(s, 9, text)
    ensures RunNt(UnscopedName, s) == NoMatch(s)
  {
    hide RunNt, RunAlts, RunPat, RunSym;
    NoUnqualifiedName(s, text);
    var alts := Rule(UnscopedName);
    NtUnfolds(UnscopedName, s);
    NtSym(UnqualifiedName, s);
    OneFails(N(UnqualifiedName), s);
    NextAlternative(UnscopedName, alts, s);
    PatFails(alts.rest.first, s);
    AltsUnfold(UnscopedName, alts.rest, s);
  }

  lemma NoUnqualifiedName(s: St, text: string)
    requires Stands(s, 9, text)
    ensures RunNt(UnqualifiedName, s) == NoMatch(s)
  {
    hide RunNt, RunAlts, RunPat, RunSym;
    NoOperator(s, text);
    var alts := Rule(UnqualifiedName);
    NtUnfolds(UnqualifiedName, s);
    NtSym(OperatorName, s);
    OneFails(N(OperatorName), s);
    NextAlternative(UnqualifiedName, alts, s);
    PatFails(alts.rest.first, s);
    NextAlternative(UnqualifiedName, alts.rest, s);
    PatFails(alts.rest.rest.first, s);
    NextAlternative(UnqualifiedName, alts.rest.rest, s);
    PatFails(alts.rest.rest.rest.first, s);
    AltsUnfold(UnqualifiedName, alts.rest.rest.rest, s);
  }

  lemma NoOperator(s: St, text: string)
    requires Stands(s, 9, text)
    ensures RunNt(OperatorName, s) == NoMatch(s)
  {
    hide RunNt, RunAlts, RunPat, RunSym;
    var alts := Rule(OperatorName);
    NtUnfolds(OperatorName, s);
    PatFails(alts.first, s);
    NextAlternative(OperatorName, alts, s);
    PatFails(alts.rest.first, s);
    NextAlternative(OperatorName, alts.rest, s);
    TerminalUnfolds(OperatorTable, s);
    OneFails(OperatorTable, s);
    AltsUnfold(OperatorName, alts.rest.rest, s);
  }

  // ---------- the local names ----------

  const ENTITY := Then(Lit("Z"), Then(N(Encoding), Four(Lit("E"), Emit("::"), N(Name), Opt(N(Discriminator)))))

  /** The first alternative of the inner local name fails, but its separator stays in the buffer. */
  lemma EntityFails(s: St)
    requires Stands(s, 6, "a::")
    ensures var r := RunPat(ENTITY, s);
            r.NoMatch? && Ok(r.st) && |r.st.out.buf| == |s.out.buf| && r.st.out.buf[..3] == "a::"
            && r.st.out.buf[3] == ':'
  {
    hide RunNt, RunPat, RunSym;
    LitStep("Z", s);
    PatUnfolds(ENTITY, s);
    var s1 := s.(cur := 7);
    EmptyEncoding(s1, "a::");
    NtSym(Encoding, s1);
    PatUnfolds(ENTITY.tail, s1);
    var s2 := s1.(cur := 8, number := -1);
    LitStep("E", s2);
    PatUnfolds(ENTITY.tail.tail, s2);
    var s3 := s2.(cur := 9);
    EmitStep(s3, 9, "a::");
    PatUnfolds(ENTITY.tail.tail.tail, s3);
    var s4 := RunSym(Emit("::"), s3).st;
    NoNameAtEnd(s4, "a::::");
    NtSym(Name, s4);
    PatUnfolds(ENTITY.tail.tail.tail.tail, s4);
  }

  /** The second alternative matches and writes nothing. */
  lemma StringMatches(s: St)
    requires Stands(s, 6, "a::")
    ensures var r := RunPat(Rule(LocalName).rest.first, s); r.Match? && r.st == s.(cur := 10, number := -1)
  {
    hide RunNt, RunPat, RunSym;
    var p := Four(Lit("Z"), N(Encoding), Lit("Es"), Opt(N(Discriminator)));
    LitStep("Z", s);
    PatUnfolds(p, s);
    var s1 := s.(cur := 7);
    EmptyEncoding(s1, "a::");
    NtSym(Encoding, s1);
    PatUnfolds(p.tail, s1);
    var s2 := s1.(cur := 8, number := -1);
    LitStep("Es", s2);
    PatUnfolds(p.tail.tail, s2);
    var s3 := s2.(cur := 10);
    NoDiscriminator(s3);
    PatUnfolds(p.tail.tail.tail, s3);
    DoneUnfolds(s3);
  }

  lemma InnerName(s: St)
    requires Stands(s, 6, "a::")
    ensures var r := RunNt(Name, s); r.Match? && Stands(r.st, 10, "a::") && r.st.out.buf[3] == ':'
  {
    hide RunNt, RunAlts, RunPat, RunSym;
    EntityFails(s);
    var t := RunPat(ENTITY, s).st;
    var u := Restore(s, t);
    RestoreStands(s, t, 6, "a::");
    StringMatches(u);
    var alts := Rule(LocalName);
    NtUnfolds(LocalName, s);
    AltsUnfold(LocalName, alts, s);
    AlternativeMatches(LocalName, alts.rest, u);
    NameIsLocal(s);
  }

  lemma NameIsLocal(s: St)
    requires Ok(s) && Peek(s) == 'Z' && RunNt(LocalName, s).Match?
    ensures RunNt(Name, s).Match? && RunNt(Name, s).st == RunNt(LocalName, s).st
  {
    hide RunNt, RunAlts, RunPat, RunSym;
    var alts := Rule(Name);
    NtUnfolds(Name, s);
    PatFails(alts.first, s);
    NextAlternative(Name, alts, s);
    NtSym(LocalName, s);
    OneMatches(N(LocalName), s);
    AlternativeMatches(Name, alts.rest, s);
  }

  lemma OuterName(s: St)
    requires Stands(s, 2, "")
    ensures var r := RunNt(Name, s); r.Match? && Stands(r.st, 10, "a::") && r.st.out.buf[3] == ':'
  {
    hide RunNt, RunAlts, RunPat, RunSym;
    EntityMatches(s);
    NtUnfolds(LocalName, s);
    AlternativeMatches(LocalName, Rule(LocalName), s);
    NameIsLocal(s);
  }

  lemma EntityMatches(s: St)
    requires Stands(s, 2, "")
    ensures var r := RunPat(ENTITY, s); r.Match? && Stands(r.st, 10, "a::") && r.st.out.buf[3] == ':'
  {
    hide RunNt, RunPat, RunSym;
    LitStep("Z", s);
    PatUnfolds(ENTITY, s);
    var s1 := s.(cur := 3);
    LetterEncoding(s1);
    NtSym(Encoding, s1);
    PatUnfolds(ENTITY.tail, s1);
    var s2 := RunNt(Encoding, s1).st;
    LitStep("E", s2);
    PatUnfolds(ENTITY.tail.tail, s2);
    var s3 := s2.(cur := 6);
    EmitStep(s3, 6, "a");
    PatUnfolds(ENTITY.tail.tail.tail, s3);
    var s4 := RunSym(Emit("::"), s3).st;
    InnerName(s4);
    NtSym(Name, s4);
    PatUnfolds(ENTITY.tail.tail.tail.tail, s4);
    var s5 := RunNt(Name, s4).st;
    NoDiscriminator(s5);
    PatUnfolds(ENTITY.tail.tail.tail.tail.tail, s5);
    DoneUnfolds(s5);
  }

  /** The name is accepted, nothing overflows, the text is "a::", and behind it stands a colon. */
  lemma TextIsNotTerminated(buf: seq<char>)
    requires |buf| >= 16
    ensures var r := RunNt(MangledName, Initial(NAME, buf));
            r.Match? && r.st.cur == |NAME| && !r.st.out.overflowed && r.st.out.cur == 3
            && r.st.out.buf[..3] == "a::" && r.st.out.buf[3] == ':'
  {
    hide RunNt, RunAlts, RunPat, RunSym;
    var s := Initial(NAME, buf);
    var p := Three(Lit("_Z"), N(Encoding), Suffix);
    LitStep("_Z", s);
    PatUnfolds(p, s);
    var s1 := s.(cur := 2);
    WholeEncoding(s1);
    NtSym(Encoding, s1);
    PatUnfolds(p.tail, s1);
    var s2 := RunNt(Encoding, s1).st;
    TerminalUnfolds(Suffix, s2);
    PatUnfolds(p.tail.tail, s2);
    DoneUnfolds(s2);
    NtUnfolds(MangledName, s);
    AlternativeMatches(MangledName, Rule(MangledName), s);
  }

  lemma WholeEncoding(s: St)
    requires Stands(s, 2, "")
    ensures var r := RunNt(Encoding, s); r.Match? && Stands(r.st, 10, "a::") && r.st.out.buf[3] == ':'
  {
    hide RunNt;
    OuterName(s);
    var t := RunNt(Name, s).st;
    assert |t.out.buf| == |s.out.buf|;
    RestoreStands(s, t, 2, "");
    OuterName(Restore(s, t));
    EncodingIsName(s, t, Restore(s, t));
  }

  // ---------- a name that writes nothing at all ----------

  lemma ZeroIsEmpty(s: St)
    requires Ok(s) && s.src == "_Z0" && s.cur == 2
    ensures RunNt(SourceName, s).Match? && RunNt(SourceName, s).st == s.(cur := 3, number := -1)
  {
    var w := s.src[2..3];
    assert w == "0" && w[..0] == "" && Value(Decimal, w) == 0;
    assert DigitsEnd(Decimal, s.src, 2) == 3 && Skip(s, 'n') == s;
    SourceNameUnfolds(s);
    assert s.src[3..3] == "";
    hide RunNt;
  }

  /** The name "_Z0" is accepted, whatever the buffer, which stays as it was passed in: the code never writes to it. */
  lemma NothingIsWritten(buf: seq<char>)
    requires buf != []
    ensures var r := RunNt(MangledName, Initial("_Z0", buf));
            r.Match? && r.st.cur == 3 && !r.st.out.overflowed && r.st.out.cur == 0 && r.st.out.buf == buf
  {
    hide RunNt, RunAlts, RunPat, RunSym;
    var s := Initial("_Z0", buf);
    var p := Three(Lit("_Z"), N(Encoding), Suffix);
    var s1, s2 := s.(cur := 2), s.(cur := 3);
    LitStep("_Z", s);
    PatUnfolds(p, s);
    ZeroIsEmpty(s1);
    assert Restore(s1, s2) == s1;
    NameAtDigit(s1, s2, s1);
    EncodingIsName(s1, s2, s1);
    NtSym(Encoding, s1);
    PatUnfolds(p.tail, s1);
    TerminalUnfolds(Suffix, s2);
    PatUnfolds(p.tail.tail, s2);
    DoneUnfolds(s2);
    NtUnfolds(MangledName, s);
    AlternativeMatches(MangledName, Rule(MangledName), s);
  }
}
