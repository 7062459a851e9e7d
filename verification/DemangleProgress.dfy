/** How far a nonterminal has been read: the interpreter seen from inside a parsing function, one symbol at a
    time. */
module DemangleProgress {
  import opened DemangleGrammar
  import opened DemangleSpec

  /** How a run ends, without the tree. */
  datatype End = Matched(st: St) | Failed(st: St) | Faulted

  function EndOf(r: Res): End {
    match r case Match(s, _) => Matched(s) case NoMatch(s) => Failed(s) case Fault => Faulted
  }

  /** How a run of y ends; it stays within the source and the buffer, and what is not nullable moves on. */
  function EndSym(y: Sym, s: St): (e: End)
    requires Ok(s)
    ensures !e.Faulted? ==> Ok(e.st) && e.st.src == s.src
    ensures e.Matched? ==> s.cur <= e.st.cur && (s.cur == e.st.cur ==> NullableSym(y))
    ensures e.Failed? && RestoringSym(y) ==> e.st == Restore(s, e.st)
  {
    EndOf(RunSym(y, s))
  }

  function EndPat(p: Pat, s: St): (e: End)
    requires Ok(s)
    ensures !e.Faulted? ==> Inside(s, e.st)
    ensures e.Matched? ==> s.cur <= e.st.cur && e.st.append == s.append && e.st.nest == s.nest
  {
    EndOf(RunPat(p, s))
  }

  function EndStar(n: Nonterminal, s: St): (e: End)
    requires Ok(s)
    ensures !e.Faulted? ==> Inside(s, e.st)
  {
    EndOf(RunStar(n, s))
  }

  function EndPrefix(has: bool, s: St): (e: End)
    requires Ok(s)
    ensures !e.Faulted? ==> Inside(s, e.st)
    ensures e.Matched? ==> s.cur <= e.st.cur && e.st.append == s.append
  {
    EndOf(RunPrefix(has, s))
  }

  /** What a parsing function saves before it tries an alternative: all of the state but the buffer. */
  datatype Copy = Copy(mangledCur: nat, outCur: nat, prevName: int, prevNameLength: int, nestLevel: int,
                       number: int, append: bool, overflowed: bool)

  function CopyOf(s: St): (c: Copy)
    requires Ok(s)
    ensures c.append == s.append && c.nestLevel == s.nest
  {
    Copy(s.cur, s.out.cur, s.out.prevName, s.out.prevLen, s.nest, s.number, s.append, s.out.overflowed)
  }

  /** A nonterminal half read: the alternatives not yet tried, the state in which the current one began, and
      what is left of it. */
  datatype Progress = Progress(n: Nonterminal, rest: Alts, from: St, left: Pat) {
    predicate Good(now: St) {
      Ok(from) && Ok(now) && Descends(rest, Level(n)) && |from.out.buf| == |now.out.buf|
    }
    /** Past the symbol at the head. */
    function Tail(): Progress requires left.Then? { this.(left := left.tail) }
    /** At the start of the next alternative. */
    function Next(s: St): Progress requires rest.Or? { Progress(n, rest.rest, s, rest.first) }
  }

  function Begin(n: Nonterminal, s: St): Progress
    requires Ok(s) && Rule(n).Or?
  {
    Progress(n, Rule(n).rest, s, Rule(n).first)
  }

  /** The end of nonterminal n, begun in s, given the end of its alternatives. */
  function Close(n: Nonterminal, s: St, r: Res): End {
    match r
    case Match(t, _) => Matched(t)
    case NoMatch(t) => Failed(if Restores(n) then Restore(s, t) else t)
    case Fault => Faulted
  }

  /** How the nonterminal ends if it has got this far. */
  function EndFrom(g: Progress, now: St): End
    requires g.Good(now)
  {
    var r := RunPat(g.left, now);
    if r.NoMatch? && g.rest.Or? then Close(g.n, g.from, RunAlts(g.n, g.rest, Restore(g.from, r.st)))
    else Close(g.n, g.from, r)
  }

  lemma Started(n: Nonterminal, s: St)
    requires Ok(s) && Rule(n).Or?
    ensures var g := Begin(n, s); g.Good(s) && EndSym(N(n), s) == EndFrom(g, s)
  {
    NtSym(n, s);
    NtUnfolds(n, s);
    AltsUnfold(n, Rule(n), s);
  }

  /** The head decides how to go on: past it, with the next alternative, or with failure. */
  lemma Step(g: Progress, now: St)
    requires g.Good(now) && g.left.Then?
    ensures match EndSym(g.left.head, now)
            case Matched(s) => g.Tail().Good(s) && EndFrom(g, now) == EndFrom(g.Tail(), s)
            case Failed(s) => var back := Restore(g.from, s);
              if g.rest.Or? then g.Next(back).Good(back) && CopyOf(back) == CopyOf(g.from) &&
                                 EndFrom(g, now) == EndFrom(g.Next(back), back)
              else Ok(back) && EndFrom(g, now) == Failed(if Restores(g.n) then back else s)
            case Faulted => EndFrom(g, now) == Faulted
  {
    if g.rest.Or? && EndSym(g.left.head, now).Failed? {
      var back := Restore(g.from, RunSym(g.left.head, now).st);
      assert RunPat(g.left, now) == NoMatch(RunSym(g.left.head, now).st);
      assert RunPat(g.rest.first, back) == RunPat(g.rest.first, back);
    }
  }

  /** The alternative that is being read decides: it ends the nonterminal, or the next one is tried. */
  lemma Try(g: Progress, now: St)
    requires g.Good(now)
    ensures match EndPat(g.left, now)
            case Matched(s) => EndFrom(g, now) == Matched(s)
            case Failed(s) => var back := Restore(g.from, s);
              if g.rest.Or? then g.Next(back).Good(back) && CopyOf(back) == CopyOf(g.from)
                                 && EndFrom(g, now) == EndFrom(g.Next(back), back)
              else Ok(back) && EndFrom(g, now) == Failed(if Restores(g.n) then back else s)
            case Faulted => EndFrom(g, now) == Faulted
  {
    if g.rest.Or? && EndPat(g.left, now).Failed? {
      var back := Restore(g.from, EndPat(g.left, now).st);
      assert RunPat(g.rest.first, back) == RunPat(g.rest.first, back);
    }
  }

  /** The same for an alternative that is a single symbol. */
  lemma TryOne(g: Progress, now: St)
    requires g.Good(now) && g.left.Then? && g.left.tail.Done?
    ensures match EndSym(g.left.head, now)
            case Matched(s) => EndFrom(g, now) == Matched(s)
            case Failed(s) => var back := Restore(g.from, s);
              if g.rest.Or? then g.Next(back).Good(back) && CopyOf(back) == CopyOf(g.from)
                                 && EndFrom(g, now) == EndFrom(g.Next(back), back)
              else Ok(back) && EndFrom(g, now) == Failed(if Restores(g.n) then back else s)
            case Faulted => EndFrom(g, now) == Faulted
  {
    hide RunPat, RunAlts;
    Try(g, now);
    PatEnd(g.left, now);
    if EndSym(g.left.head, now).Matched? { PatEnd(Done, EndSym(g.left.head, now).st); }
  }

  lemma Complete(g: Progress, now: St)
    requires g.Good(now) && g.left.Done?
    ensures EndFrom(g, now) == Matched(now)
  {
  }

  lemma TerminalEnd(y: Sym, s: St)
    requires Ok(s) && !y.N? && !y.Plus? && !y.Opt? && !y.Quiet? && !y.Nested? && !y.Prefix?
    ensures EndSym(y, s) == EndOf(RunTerminal(y, s))
  {
  }

  lemma OptEnd(y: Sym, s: St)
    requires Ok(s)
    ensures EndSym(Opt(y), s)
         == match EndSym(y, s) case Failed(t) => Matched(Restore(s, t)) case e => e
  {
    assert RunSym(Opt(y), s) == RunOpt(y, s);
  }

  lemma NestedEnd(y: Sym, s: St)
    requires Ok(s)
    ensures EndSym(Nested(y), s)
         == match EndSym(y, s.(nest := 0)) case Matched(t) => Matched(t.(nest := s.nest)) case e => e
  {
    hide RunSym;
    NestedUnfolds(y, s);
  }

  lemma QuietEnd(p: Pat, s: St)
    requires Ok(s)
    ensures EndSym(Quiet(p), s)
         == match EndPat(p, s.(append := false)) case Matched(t) => Matched(t.(append := s.append)) case e => e
  {
    assert RunSym(Quiet(p), s) == RunQuiet(p, s);
  }

  lemma PatEnd(p: Pat, s: St)
    requires Ok(s)
    ensures EndPat(p, s)
         == if p.Done? then Matched(s)
            else match EndSym(p.head, s) case Matched(t) => EndPat(p.tail, t) case e => e
  {
  }

  lemma PlusEnd(n: Nonterminal, s: St)
    requires Ok(s)
    ensures EndSym(Plus(n), s) == match EndSym(N(n), s) case Matched(t) => EndStar(n, t) case e => e
  {
    assert RunSym(Plus(n), s) == RunPlus(n, s);
    assert RunSym(N(n), s) == RunNt(n, s);
  }

  lemma StarEnd(n: Nonterminal, s: St)
    requires Ok(s)
    ensures EndStar(n, s)
         == match EndSym(N(n), s)
            case Matched(t) => EndStar(n, t) case Failed(t) => Matched(Restore(s, t)) case Faulted => Faulted
  {
    assert RunSym(N(n), s) == RunNt(n, s);
  }

  lemma PrefixSymEnd(s: St)
    requires Ok(s)
    ensures EndSym(Prefix, s)
         == match EndPrefix(false, s.(nest := 0)) case Matched(t) => Matched(t.(nest := s.nest)) case e => e
  {
  }

  lemma PrefixEnd(has: bool, s: St)
    requires Ok(s)
    ensures EndPrefix(has, s)
         == match EndSym(N(PrefixItem), Separate(s))
            case Matched(t) => EndPrefix(true, Deeper(t))
            case Failed(t) =>
              var u := CancelSeparator(t);
              if !has then Matched(u)
              else (match EndSym(N(TemplateArgs), u)
                    case Matched(v) => EndPrefix(false, v) case Failed(v) => Matched(v) case Faulted => Faulted)
            case Faulted => Faulted
  {
    hide RunPrefix, RunPrefixArgs, RunNt, RunSym, Separate, CancelSeparator;
    PrefixUnfolds(has, s);
    NtSym(PrefixItem, Separate(s));
    if has && RunNt(PrefixItem, Separate(s)).NoMatch? {
      var u := CancelSeparator(RunNt(PrefixItem, Separate(s)).st);
      NtSym(TemplateArgs, u);
      PrefixArgsUnfold(u);
    }
  }

  lemma QuietOne(y: Sym, s: St)
    requires Ok(s)
    ensures EndSym(Quiet(One(y)), s)
         == match EndSym(y, s.(append := false)) case Matched(t) => Matched(t.(append := s.append)) case e => e
  {
    QuietEnd(One(y), s);
    PatEnd(One(y), s.(append := false));
    if EndSym(y, s.(append := false)).Matched? { PatEnd(Done, EndSym(y, s.(append := false)).st); }
  }

  lemma SkipEnd(s: St, c: char)
    requires Ok(s)
    ensures EndSym(Lit([c]), s) == (if Skip(s, c).cur > s.cur then Matched(Skip(s, c)) else Failed(Skip(s, c)))
  {
    TerminalEnd(Lit([c]), s);
  }

  lemma SkipAtAnyLevel(s: St, c: char, nest: int)
    requires Ok(s)
    ensures Skip(s.(nest := nest), c) == Skip(s, c).(nest := nest)
  {
  }

  /** Qualifiers are read in the same way at every nest level. */
  lemma QualifiersAtAnyLevel(s: St, nest: int)
    requires Ok(s)
    ensures EndSym(Opt(CVQualifiers), s).Matched? && EndSym(Opt(CVQualifiers), s.(nest := nest)).Matched?
    ensures EndSym(Opt(CVQualifiers), s.(nest := nest)).st == EndSym(Opt(CVQualifiers), s).st.(nest := nest)
  {
    QualifiersEnd(s);
    QualifiersEnd(s.(nest := nest));
    hide EndSym, Skip;
    SkipAtAnyLevel(s, 'r', nest);
    SkipAtAnyLevel(Skip(s, 'r'), 'V', nest);
    SkipAtAnyLevel(Skip(Skip(s, 'r'), 'V'), 'K', nest);
  }

  lemma QualifiersEnd(s: St)
    requires Ok(s)
    ensures EndSym(Opt(CVQualifiers), s) == Matched(Skip(Skip(Skip(s, 'r'), 'V'), 'K'))
  {
    OptEnd(CVQualifiers, s);
    TerminalEnd(CVQualifiers, s);
    hide EndSym, RunSym;
  }

  /** An operator name needs two characters. */
  lemma ShortOperatorName(s: St)
    requires Ok(s) && Left(s) < 2
    ensures EndSym(N(OperatorName), s) == Failed(s)
  {
    hide EndSym, EndPat, EndFrom, RunOperatorTable, SpecialNameExtensions;
    var g := Begin(OperatorName, s);
    Started(OperatorName, s);
    var g1 := g.Next(s);
    ShortVendorOperator(s);
    ShortTerminals(s);
    Step(g, s);
    Try(g1, s);
    Step(g1.Next(s), s);
  }

  lemma ShortTerminals(s: St)
    requires Ok(s) && Left(s) < 2
    ensures EndSym(Lit("cv"), s) == Failed(s) && EndSym(OperatorTable, s) == Failed(s)
  {
    hide RunSym;
    TerminalUnfolds(Lit("cv"), s);
    TerminalUnfolds(OperatorTable, s);
  }

  lemma ShortVendorOperator(s: St)
    requires Ok(s) && Left(s) < 2
    ensures var e := EndPat(Three(Lit("v"), Class("0123456789"), N(SourceName)), s);
            e.Failed? && Restore(s, e.st) == s
  {
    var p := Three(Lit("v"), Class("0123456789"), N(SourceName));
    PatEnd(p, s);
    TerminalEnd(Lit("v"), s);
    if EndSym(Lit("v"), s).Matched? {
      var t := EndSym(Lit("v"), s).st;
      PatEnd(p.tail, t);
      TerminalEnd(Class("0123456789"), t);
    }
  }

  lemma TildeKeepsPrevious(s: St)
    requires Ok(s)
    ensures Print(s, "~").out.prevName == s.out.prevName && Print(s, "~").out.prevLen == s.out.prevLen
  {
  }

  /** A match puts the append mode and the nest level back. */
  lemma ModesBack(y: Sym, s: St)
    requires Ok(s)
    ensures EndSym(y, s).Matched? ==> EndSym(y, s).st.append == s.append && EndSym(y, s).st.nest == s.nest
  {
  }

  lemma OperatorTableEnd(s: St)
    requires Ok(s)
    ensures EndSym(OperatorTable, s)
         == if Left(s) < 2 || !IsLower(s.src[s.cur]) || !IsAlpha(s.src[s.cur + 1]) then Failed(s)
            else
              var i := Find(OPERATORS, 0, Both(s.src[s.cur], s.src[s.cur + 1]));
              if i == |OPERATORS| then Failed(s)
              else Matched(OperatorText(OPERATORS[i].long, s).(cur := s.cur + 2))
  {
    hide OperatorText, OPERATORS, Find, IsLower, IsAlpha, RunSym;
    TerminalUnfolds(OperatorTable, s);
  }
}
