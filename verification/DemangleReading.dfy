/** What a run with printing off reads, symbol by symbol, and what the derivation that it finds says. By NtAlike of
    DemangleControl a run with printing on finds the same one. */
module DemangleReading {
  import opened DemangleGrammar
  import opened DemangleSpec
  import opened DemangleDerivation
  import opened DemangleLength
  import opened DemangleLookahead
  import opened DemangleOutput
  import opened DemangleNames

  predicate Silent(s: St) { Ok(s) && !s.append }

  /** The character at position i, NUL behind the end. */
  function CharAt(src: string, i: nat): char { if i < |src| then src[i] else '\0' }

  /** From s the run has read w. */
  predicate Past(s: St, r: Res, w: string) {
    Silent(s) && Starts(s.src, s.cur, w) && r.Match? && r.st == s.(cur := s.cur + |w|, number := r.st.number)
  }

  /** y reads w, and the text that its derivation adds takes c to d. */
  predicate Scans(y: Sym, s: St, w: string, c: Ctx, d: Ctx) {
    Silent(s) && Past(s, RunSym(y, s), w) && Spell(y, RunSym(y, s).tree, c) == d
  }

  predicate ScansPat(p: Pat, s: St, w: string, c: Ctx, d: Ctx) {
    Silent(s) && Past(s, RunPat(p, s), w) && SpellPat(p, RunPat(p, s).tree, c) == d
  }

  // ---------- patterns and alternatives ----------

  lemma StartsSplits(src: string, at: nat, v: string, w: string)
    ensures Starts(src, at, v + w) <==> Starts(src, at, v) && Starts(src, at + |v|, w)
    ensures Starts(src, at, v + w) ==> at + |v| + |w| <= |src| && (w != "" ==> CharAt(src, at + |v|) == w[0])
  {
    if at + |v| + |w| <= |src| {
      assert src[at..at + |v| + |w|] == src[at..at + |v|] + src[at + |v|..at + |v| + |w|];
      if src[at..at + |v| + |w|] == v + w {
        assert src[at..at + |v|] == src[at..at + |v| + |w|][..|v|] == v;
        assert src[at + |v|..at + |v| + |w|] == src[at..at + |v| + |w|][|v|..] == w;
      }
    }
  }

  lemma DoneReads(s: St, c: Ctx)
    requires Silent(s)
    ensures ScansPat(Done, s, "", c, c)
  {
    DoneUnfolds(s);
    hide RunPat;
    assert s.src[s.cur..s.cur] == "";
  }

  lemma ThenReads(y: Sym, p: Pat, s: St, v: string, w: string, c: Ctx, b: Ctx, d: Ctx)
    requires Scans(y, s, v, c, b) && ScansPat(p, RunSym(y, s).st, w, b, d)
    ensures ScansPat(Then(y, p), s, v + w, c, d)
  {
    hide RunSym, RunPat, Spell, Starts;
    PatUnfolds(Then(y, p), s);
    StartsSplits(s.src, s.cur, v, w);
  }

  lemma OneReads(y: Sym, s: St, w: string, c: Ctx, d: Ctx)
    requires Scans(y, s, w, c, d)
    ensures ScansPat(One(y), s, w, c, d)
  {
    hide RunSym, RunPat, Spell, SpellPat;
    DoneReads(RunSym(y, s).st, d);
    ThenReads(y, Done, s, w, "", c, d, d);
    assert w + "" == w;
  }

  lemma TwoRead(y: Sym, z: Sym, s: St, v: string, w: string, c: Ctx, b: Ctx, d: Ctx)
    requires Scans(y, s, v, c, b) && Scans(z, RunSym(y, s).st, w, b, d)
    ensures ScansPat(Two(y, z), s, v + w, c, d)
  {
    var t := Advance(y, s, v, c, b);
    hide RunSym, RunPat, Scans, ScansPat;
    OneReads(z, t, w, b, d);
    ThenReads(y, One(z), s, v, w, c, b, d);
  }

  /** The text printed last. */
  lemma ThenEmits(y: Sym, text: string, s: St, w: string, c: Ctx, d: Ctx)
    requires Scans(y, s, w, c, d)
    ensures ScansPat(Two(y, Emit(text)), s, w, c, Said(d, text))
  {
    var t := Advance(y, s, w, c, d);
    hide RunSym, RunPat, Scans, ScansPat, Said;
    EmitReads(text, t, d);
    TwoRead(y, Emit(text), s, w, "", c, d, Said(d, text));
    assert w + "" == w;
  }

  /** p is the first of the alternatives that does not fail. */
  predicate Picks(alts: Alts, s: St, p: Pat)
    requires Ok(s)
    decreases alts
  {
    alts.Or? && if RunPat(alts.first, s).NoMatch? then Picks(alts.rest, s, p) else alts.first == p
  }

  lemma {:induction false} PickedReads(n: Nonterminal, alts: Alts, p: Pat, s: St, w: string, c: Ctx, d: Ctx)
    requires Silent(s) && Descends(alts, Level(n)) && Picks(alts, s, p) && ScansPat(p, s, w, c, d)
    ensures var r := RunAlts(n, alts, s); Past(s, r, w) && Spell(N(n), r.tree, c) == d
    decreases alts
  {
    hide RunPat, RunAlts, Starts, SpellPat;
    AltsUnfold(n, alts, s);
    var r := RunPat(alts.first, s);
    if r.NoMatch? {
      assert Restore(s, r.st) == s;
      assert alts.rest.Or?;
      PickedReads(n, alts.rest, p, s, w, c, d);
    }
  }

  /** The first alternative that does not fail decides. */
  lemma NtReads(n: Nonterminal, p: Pat, s: St, w: string, c: Ctx, d: Ctx)
    requires Silent(s) && Picks(Rule(n), s, p) && ScansPat(p, s, w, c, d)
    ensures Scans(N(n), s, w, c, d)
  {
    hide RunPat, RunAlts, RunNt, Rule, Picks, Spell, ScansPat;
    NtUnfolds(n, s);
    NtSym(n, s);
    PickedReads(n, Rule(n), p, s, w, c, d);
  }

  /** A pattern that cannot begin with the next character. */
  lemma Unread(y: Sym, p: Pat, s: St)
    requires Ok(s) && !BeginsSym(y, Peek(s))
    ensures RunPat(Then(y, p), s).NoMatch?
  {
    hide RunPat, BeginsSym;
    PatFails(Then(y, p), s);
  }

  lemma NoSuch(n: Nonterminal, p: Pat, s: St)
    requires Ok(s) && !Begins(n, Peek(s))
    ensures RunPat(Then(N(n), p), s).NoMatch?
  {
    hide RunPat, Begins;
    Unread(N(n), p, s);
  }

  /** The first alternative. */
  lemma FirstReads(n: Nonterminal, p: Pat, s: St, w: string, c: Ctx, d: Ctx)
    requires Rule(n).Or? && Rule(n).first == p && ScansPat(p, s, w, c, d)
    ensures Scans(N(n), s, w, c, d)
  {
    PatMatches(p, s, w, c, d);
    hide Rule, RunPat, ScansPat, Scans;
    NtReads(n, p, s, w, c, d);
  }

  /** The second, where the first fails. */
  lemma SecondReads(n: Nonterminal, p: Pat, s: St, w: string, c: Ctx, d: Ctx)
    requires ScansPat(p, s, w, c, d) && Rule(n).Or? && Rule(n).rest.Or? && Rule(n).rest.first == p
    requires RunPat(Rule(n).first, s).NoMatch?
    ensures Scans(N(n), s, w, c, d)
  {
    PatMatches(p, s, w, c, d);
    hide Rule, RunPat, ScansPat, Scans;
    NtReads(n, p, s, w, c, d);
  }

  /** The third, where the first two fail. */
  lemma ThirdReads(n: Nonterminal, p: Pat, s: St, w: string, c: Ctx, d: Ctx)
    requires ScansPat(p, s, w, c, d) && Rule(n).Or? && Rule(n).rest.Or? && Rule(n).rest.rest.Or?
    requires Rule(n).rest.rest.first == p
    requires RunPat(Rule(n).first, s).NoMatch? && RunPat(Rule(n).rest.first, s).NoMatch?
    ensures Scans(N(n), s, w, c, d)
  {
    PatMatches(p, s, w, c, d);
    hide Rule, RunPat, ScansPat, Scans;
    assert Picks(Rule(n).rest, s, p);
    NtReads(n, p, s, w, c, d);
  }

  /** The fourth, where the first three fail. */
  lemma FourthReads(n: Nonterminal, p: Pat, s: St, w: string, c: Ctx, d: Ctx)
    requires ScansPat(p, s, w, c, d) && Rule(n).Or? && Rule(n).rest.Or? && Rule(n).rest.rest.Or?
    requires Rule(n).rest.rest.rest.Or? && Rule(n).rest.rest.rest.first == p
    requires RunPat(Rule(n).first, s).NoMatch? && RunPat(Rule(n).rest.first, s).NoMatch?
    requires RunPat(Rule(n).rest.rest.first, s).NoMatch?
    ensures Scans(N(n), s, w, c, d)
  {
    PatMatches(p, s, w, c, d);
    hide Rule, RunPat, ScansPat, Scans;
    assert Picks(Rule(n).rest.rest, s, p);
    assert Picks(Rule(n).rest, s, p);
    NtReads(n, p, s, w, c, d);
  }

  lemma PatMatches(p: Pat, s: St, w: string, c: Ctx, d: Ctx)
    requires ScansPat(p, s, w, c, d)
    ensures RunPat(p, s).Match?
  {
  }

  /** A first part that can be read, and then one that cannot. */
  lemma SecondFails(y: Sym, z: Sym, p: Pat, s: St, v: string, c: Ctx, d: Ctx)
    requires Scans(y, s, v, c, d) && !BeginsSym(z, Peek(RunSym(y, s).st))
    ensures RunPat(Then(y, Then(z, p)), s).NoMatch?
  {
    hide RunSym, RunPat, BeginsSym, Spell, Starts;
    PatUnfolds(Then(y, Then(z, p)), s);
    PatFails(Then(z, p), RunSym(y, s).st);
  }

  /** Other characters than those of the literal. */
  lemma LitFails(v: string, p: Pat, s: St)
    requires Ok(s) && !Starts(s.src, s.cur, v)
    ensures RunPat(Then(Lit(v), p), s).NoMatch?
  {
    TerminalUnfolds(Lit(v), s);
    PatUnfolds(Then(Lit(v), p), s);
    hide RunPat, RunSym, Starts;
  }

  /** From these alternatives n reads w. */
  predicate ScansFrom(n: Nonterminal, alts: Alts, s: St, w: string, c: Ctx, d: Ctx) {
    && Silent(s) && Descends(alts, Level(n))
    && var r := RunAlts(n, alts, s); Past(s, r, w) && Spell(N(n), r.tree, c) == d
  }

  lemma HereReads(n: Nonterminal, alts: Alts, p: Pat, s: St, w: string, c: Ctx, d: Ctx)
    requires alts.Or? && alts.first == p && Descends(alts, Level(n)) && ScansPat(p, s, w, c, d)
    ensures ScansFrom(n, alts, s, w, c, d)
  {
    PatMatches(p, s, w, c, d);
    hide RunPat, RunAlts, Spell, ScansPat, Descends, Starts;
    PickedReads(n, alts, p, s, w, c, d);
  }

  lemma SkipReads(n: Nonterminal, alts: Alts, s: St, w: string, c: Ctx, d: Ctx)
    requires Silent(s) && alts.Or? && alts.rest.Or? && Descends(alts, Level(n)) && RunPat(alts.first, s).NoMatch?
    requires ScansFrom(n, alts.rest, s, w, c, d)
    ensures ScansFrom(n, alts, s, w, c, d)
  {
    hide RunPat, RunAlts, Spell, Starts;
    SkipOne(n, alts, s);
  }

  lemma SecondFrom(n: Nonterminal, p: Pat, q: Pat, rest: Alts, s: St, w: string, c: Ctx, d: Ctx)
    requires Descends(Or(p, Or(q, rest)), Level(n)) && RunPatFails(p, s) && ScansPat(q, s, w, c, d)
    ensures ScansFrom(n, Or(p, Or(q, rest)), s, w, c, d)
  {
    hide RunPat, ScansFrom, ScansPat, RankPat, NullablePat;
    HereReads(n, Or(q, rest), q, s, w, c, d);
    SkipReads(n, Or(p, Or(q, rest)), s, w, c, d);
  }

  lemma ThirdFrom(n: Nonterminal, p: Pat, q: Pat, r: Pat, rest: Alts, s: St, w: string, c: Ctx, d: Ctx)
    requires Descends(Or(p, Or(q, Or(r, rest))), Level(n)) && RunPatFails(p, s) && RunPatFails(q, s)
    requires ScansPat(r, s, w, c, d)
    ensures ScansFrom(n, Or(p, Or(q, Or(r, rest))), s, w, c, d)
  {
    hide RunPat, ScansFrom, ScansPat, RankPat, NullablePat;
    SecondFrom(n, q, r, rest, s, w, c, d);
    SkipReads(n, Or(p, Or(q, Or(r, rest))), s, w, c, d);
  }

  lemma FourthFrom(n: Nonterminal, p: Pat, q: Pat, r: Pat, rest: Alts, s: St, w: string, c: Ctx, d: Ctx)
    requires Descends(Or(p, Or(q, Or(r, rest))), Level(n))
    requires RunPatFails(p, s) && RunPatFails(q, s) && RunPatFails(r, s) && ScansFrom(n, rest, s, w, c, d) && rest.Or?
    ensures ScansFrom(n, Or(p, Or(q, Or(r, rest))), s, w, c, d)
  {
    hide RunPat, ScansFrom, RankPat, NullablePat;
    SkipReads(n, Or(r, rest), s, w, c, d);
    SkipReads(n, Or(q, Or(r, rest)), s, w, c, d);
    SkipReads(n, Or(p, Or(q, Or(r, rest))), s, w, c, d);
  }

  predicate RunPatFails(p: Pat, s: St) { Silent(s) && RunPat(p, s).NoMatch? }

  lemma RuleReads(n: Nonterminal, s: St, w: string, c: Ctx, d: Ctx)
    requires ScansFrom(n, Rule(n), s, w, c, d)
    ensures Scans(N(n), s, w, c, d)
  {
    hide RunAlts, RunNt, Rule, Spell, Starts;
    NtUnfolds(n, s);
    NtSym(n, s);
  }

  /** Two alternatives that fail. */
  lemma TwoFail(n: Nonterminal, p: Pat, q: Pat, s: St)
    requires Silent(s) && Rule(n) == Or(p, Or(q, Fail)) && RunPat(p, s).NoMatch? && RunPat(q, s).NoMatch?
    ensures RunSym(N(n), s).NoMatch?
  {
    hide RunNt, RunSym, RunPat, RunAlts, Rule;
    var alts := Or(p, Or(q, Fail));
    NtUnfolds(n, s);
    NtSym(n, s);
    AltsUnfold(n, alts, s);
    assert Restore(s, RunPat(p, s).st) == s;
    AltsUnfold(n, alts.rest, s);
    assert RunAlts(n, alts, s) == RunAlts(n, alts.rest, s);
  }

  lemma FourFail(n: Nonterminal, s: St)
    requires Silent(s) && Rule(n).Or? && Rule(n).rest.Or? && Rule(n).rest.rest.Or? && Rule(n).rest.rest.rest.Or?
    requires Rule(n).rest.rest.rest.rest.Fail?
    requires RunPat(Rule(n).first, s).NoMatch? && RunPat(Rule(n).rest.first, s).NoMatch?
    requires RunPat(Rule(n).rest.rest.first, s).NoMatch? && RunPat(Rule(n).rest.rest.rest.first, s).NoMatch?
    ensures RunSym(N(n), s).NoMatch?
  {
    hide RunNt, RunSym, RunPat, RunAlts, Rule;
    var alts := Rule(n);
    NtUnfolds(n, s);
    NtSym(n, s);
    SkipOne(n, alts, s);
    SkipOne(n, alts.rest, s);
    SkipOne(n, alts.rest.rest, s);
    AltsUnfold(n, alts.rest.rest.rest, s);
  }

  lemma SkipOne(n: Nonterminal, alts: Alts, s: St)
    requires Silent(s) && alts.Or? && alts.rest.Or? && Descends(alts, Level(n)) && RunPat(alts.first, s).NoMatch?
    ensures Descends(alts.rest, Level(n)) && RunAlts(n, alts, s) == RunAlts(n, alts.rest, s)
  {
    hide RunPat, RunAlts;
    AltsUnfold(n, alts, s);
    assert Restore(s, RunPat(alts.first, s).st) == s;
  }

  lemma {:induction false} NodeOf(n: Nonterminal, alts: Alts, s: St)
    requires Ok(s) && Descends(alts, Level(n))
    ensures var r := RunAlts(n, alts, s); r.Match? ==> r.tree.Node? && r.tree.n == n
    decreases alts
  {
    hide RunPat;
    if alts.Or? {
      AltsUnfold(n, alts, s);
      hide RunAlts;
      if RunPat(alts.first, s).NoMatch? { NodeOf(n, alts.rest, Restore(s, RunPat(alts.first, s).st)); }
    }
  }

  /** The state behind what has been read. */
  lemma Advance(y: Sym, s: St, w: string, c: Ctx, d: Ctx) returns (t: St)
    requires Scans(y, s, w, c, d)
    ensures RunSym(y, s).Match? && t == RunSym(y, s).st
    ensures Silent(t) && Silent(s) && t == s.(cur := s.cur + |w|, number := t.number)
  {
    hide RunSym, Spell;
    t := RunSym(y, s).st;
  }

  /** What has been read, whatever it says. */
  lemma PastScans(y: Sym, s: St, w: string, c: Ctx) returns (d: Ctx)
    requires Silent(s) && Past(s, RunSym(y, s), w)
    ensures Scans(y, s, w, c, d)
  {
    hide RunSym, Starts;
    d := Spell(y, RunSym(y, s).tree, c);
  }

  // ---------- options, silence, nesting, repetition ----------

  lemma OptionReads(y: Sym, s: St, w: string, c: Ctx, d: Ctx)
    requires Scans(y, s, w, c, d) && !RunSym(y, s).tree.Eps?
    ensures Scans(Opt(y), s, w, c, d)
  {
  }

  lemma NoOption(y: Sym, s: St, c: Ctx)
    requires Silent(s) && !BeginsSym(y, Peek(s))
    ensures Scans(Opt(y), s, "", c, c)
  {
    hide RunSym, BeginsSym;
    SymFails(y, s);
    OptFails(y, s);
    assert s.src[s.cur..s.cur] == "";
  }

  lemma QuietReads(p: Pat, s: St, w: string, c: Ctx)
    requires Silent(s) && Past(s, RunPat(p, s), w)
    ensures Scans(Quiet(p), s, w, c, c)
  {
    hide RunPat, Starts;
    assert s.(append := false) == s;
    var q := RunQuiet(p, s);
    assert RunSym(Quiet(p), s) == q;
  }

  /** At nest level 0. */
  lemma NestedReads(y: Sym, s: St, w: string, c: Ctx, d: Ctx)
    requires Silent(s) && Scans(y, s.(nest := 0), w, c, d)
    ensures Scans(Nested(y), s, w, c, d)
  {
    hide RunSym, Starts;
    NestedUnfolds(y, s);
  }

  // ---------- terminals ----------

  lemma TerminalReads(y: Sym, s: St, w: string, c: Ctx)
    requires Silent(s) && !y.N? && !y.Plus? && !y.Opt? && !y.Quiet? && !y.Nested? && !y.Prefix?
    requires Past(s, RunTerminal(y, s), w)
    ensures Scans(y, s, w, c, Spell(y, RunTerminal(y, s).tree, c))
  {
    hide RunSym, RunTerminal, Spell, Starts;
    TerminalUnfolds(y, s);
  }

  lemma LitReads(v: string, s: St, c: Ctx)
    requires Silent(s) && Starts(s.src, s.cur, v)
    ensures Scans(Lit(v), s, v, c, c)
  {
    TerminalReads(Lit(v), s, v, c);
    hide RunSym, Scans;
  }

  lemma ClassReads(cs: string, ch: char, s: St, c: Ctx)
    requires Silent(s) && ch in cs && Starts(s.src, s.cur, [ch])
    ensures Scans(Class(cs), s, [ch], c, c)
  {
    assert s.src[s.cur..s.cur + 1][0] == ch;
    TerminalReads(Class(cs), s, [ch], c);
    hide RunSym, Scans;
  }

  lemma EmitReads(text: string, s: St, c: Ctx)
    requires Silent(s)
    ensures Scans(Emit(text), s, "", c, Said(c, text))
  {
    assert s.src[s.cur..s.cur] == "";
    TerminalReads(Emit(text), s, "", c);
    hide RunSym, Scans;
  }

  lemma EmitPreviousReads(s: St, c: Ctx)
    requires Silent(s)
    ensures Scans(EmitPrevious, s, "", c, Said(c, c.previous))
  {
    assert s.src[s.cur..s.cur] == "";
    TerminalReads(EmitPrevious, s, "", c);
    hide RunSym, Scans;
  }

  // ---------- numbers ----------

  lemma DigitOfDigit(radix: Radix, k: nat)
    requires radix != Hexadecimal && k < Base(radix)
    ensures Digit(radix, DIGITS[k]) == k
  {
  }

  lemma {:induction false} DigitsAreDigits(n: nat, radix: Radix)
    requires radix != Hexadecimal
    ensures Digits(n, Base(radix)) != ""
    ensures forall i :: 0 <= i < |Digits(n, Base(radix))| ==> Digit(radix, Digits(n, Base(radix))[i]) >= 0
    decreases n
  {
    hide Digit;
    var b := Base(radix);
    if n < b {
      DigitOfDigit(radix, n);
    } else {
      DigitOfDigit(radix, n % b);
      DigitsAreDigits(n / b, radix);
    }
  }

  lemma {:induction false} DigitsValue(n: nat)
    ensures Value(Decimal, Digits(n, 10)) == n
    decreases n
  {
    hide Digit;
    if n < 10 {
      DigitOfDigit(Decimal, n);
      assert [DIGITS[n]][..0] == "";
    } else {
      DigitOfDigit(Decimal, n % 10);
      DigitsValue(n / 10);
      var w := Digits(n, 10);
      assert w[..|w| - 1] == Digits(n / 10, 10) && w[|w| - 1] == DIGITS[n % 10];
    }
  }

  lemma {:induction false} DigitsEndThere(radix: Radix, src: string, p: nat, q: nat)
    requires p <= q <= |src| && Digit(radix, CharAt(src, q)) < 0
    requires forall i :: p <= i < q ==> Digit(radix, src[i]) >= 0
    ensures DigitsEnd(radix, src, p) == q
    decreases q - p
  {
    if p < q {
      DigitsEndThere(radix, src, p + 1, q);
    }
  }

  /** Digits as far as they go. */
  lemma DigitsRead(radix: Radix, n: nat, s: St, c: Ctx)
    requires Silent(s) && radix != Hexadecimal
    requires var w := Digits(n, Base(radix));
             Starts(s.src, s.cur, w) && Digit(radix, CharAt(s.src, s.cur + |w|)) < 0
    ensures Past(s, RunNumeral(radix, s), Digits(n, Base(radix)))
    ensures radix == Decimal ==> RunNumeral(radix, s).st.number == n
    ensures Scans(Numeral(radix), s, Digits(n, Base(radix)), c, c)
  {
    hide Digits, Digit, RunSym, Scans, RunNumeral, DigitsEnd;
    NumeralRuns(radix, n, s);
    TerminalReads(Numeral(radix), s, Digits(n, Base(radix)), c);
  }

  lemma NumeralRuns(radix: Radix, n: nat, s: St)
    requires Silent(s) && radix != Hexadecimal
    requires var w := Digits(n, Base(radix));
             Starts(s.src, s.cur, w) && Digit(radix, CharAt(s.src, s.cur + |w|)) < 0
    ensures Past(s, RunNumeral(radix, s), Digits(n, Base(radix)))
    ensures radix == Decimal ==> RunNumeral(radix, s).st.number == n
  {
    hide Digits, Digit, Value, DigitsEnd, Skip;
    var w := Digits(n, Base(radix));
    DigitsAreDigits(n, radix);
    var q := s.cur + |w|;
    assert forall i :: s.cur <= i < q ==> s.src[i] == s.src[s.cur..q][i - s.cur];
    DigitsEndThere(radix, s.src, s.cur, q);
    NoSign(radix, s);
    if radix == Decimal { DigitsValue(n); }
  }

  /** A number with its sign. */
  lemma SignedRead(n: int, s: St, c: Ctx)
    requires Silent(s) && Starts(s.src, s.cur, SignedNumber(n))
    requires Digit(Decimal, CharAt(s.src, s.cur + |SignedNumber(n)|)) < 0
    ensures Scans(NUMBER, s, SignedNumber(n), c, c)
  {
    hide Digits, Digit, RunSym, Scans, Past, Starts, Ok;
    if n >= 0 {
      DigitsRead(Decimal, n, s, c);
    } else {
      NegativeReads(-n, s, c);
    }
  }

  lemma NegativeReads(n: nat, s: St, c: Ctx)
    requires Silent(s)
    requires var w := "n" + Digits(n, 10); Starts(s.src, s.cur, w) && Digit(Decimal, CharAt(s.src, s.cur + |w|)) < 0
    ensures Scans(NUMBER, s, "n" + Digits(n, 10), c, c)
  {
    hide Digits, Digit, RunSym, RunNumeral, Scans, Past, Starts, Ok;
    NegativeRuns(n, s);
    TerminalReads(NUMBER, s, "n" + Digits(n, 10), c);
  }

  lemma NegativeRuns(n: nat, s: St)
    requires Silent(s)
    requires var w := "n" + Digits(n, 10); Starts(s.src, s.cur, w) && Digit(Decimal, CharAt(s.src, s.cur + |w|)) < 0
    ensures Past(s, RunNumeral(Decimal, s), "n" + Digits(n, 10))
  {
    hide Digits, Digit, Value, DigitsEnd;
    var w := Digits(n, 10);
    StartsSplits(s.src, s.cur, "n", w);
    DigitsAreDigits(n, Decimal);
    var p, q := s.cur + 1, s.cur + 1 + |w|;
    assert forall i :: p <= i < q ==> s.src[i] == s.src[p..q][i - p];
    DigitsEndThere(Decimal, s.src, p, q);
  }

  lemma NoSign(radix: Radix, s: St)
    requires Ok(s) && s.cur < |s.src| && Digit(radix, s.src[s.cur]) >= 0
    ensures Skip(s, 'n') == s
  {
    assert s.src[s.cur..s.cur + 1] == [s.src[s.cur]];
  }

  // ---------- names and tables ----------

  lemma IdentifierReads(w: string, s: St)
    requires Silent(s) && s.number == |w| && Starts(s.src, s.cur, w)
    ensures RunIdentifier(s) == Match(s.(cur := s.cur + |w|, number := -1), Text(w))
  {
    hide IdentifierText;
  }

  /** A length and so many characters. */
  lemma SizedNameReads(w: string, s: St, c: Ctx)
    requires Silent(s) && IsName(w) && Starts(s.src, s.cur, Counted(w))
    ensures Scans(SizedName, s, Counted(w), c, Said(c, IdentifierText(w)))
  {
    hide Counted, RunSym, Scans, IdentifierText, Said, Starts, RunSizedName, Ok, Spell, IsName, Past;
    var v := Counted(w);
    NameIsSized(w, s);
    SizedTerminal(s);
    TerminalReads(SizedName, s, v, c);
    SpellSized(w, RunSizedName(s).tree, c);
  }

  lemma SizedTerminal(s: St)
    requires Ok(s)
    ensures RunTerminal(SizedName, s) == RunSizedName(s)
  {
    hide RunSizedName;
  }

  lemma SpellSized(w: string, t: Tree, c: Ctx)
    requires t.Pair? && t.b == Text(w)
    ensures Spell(SizedName, t, c) == Said(c, IdentifierText(w))
  {
  }

  lemma NameIsSized(w: string, s: St)
    requires Silent(s) && IsName(w) && Starts(s.src, s.cur, Counted(w))
    ensures var r := RunSizedName(s);
            r.Match? && Past(s, r, Counted(w)) && r.tree.Pair? && r.tree.b == Text(w)
  {
    hide Digits, RunNumeral, RunIdentifier, Starts, Digit;
    var digits := Digits(|w|, 10);
    StartsSplits(s.src, s.cur, digits, w);
    NoDigitFirst(w);
    NumeralRuns(Decimal, |w|, s);
    IdentifierReads(w, RunNumeral(Decimal, s).st);
  }

  lemma NoDigitFirst(w: string)
    requires IsName(w)
    ensures Digit(Decimal, w[0]) < 0
  {
  }

  lemma SourceNameReads(w: string, s: St, c: Ctx)
    requires Silent(s) && IsName(w) && Starts(s.src, s.cur, Counted(w))
    ensures Scans(N(SourceName), s, Counted(w), c, Said(c, IdentifierText(w)))
  {
    hide Counted, RunSym, RunPat, Scans, ScansPat, IdentifierText, Said, Starts, IsName, Ok;
    var d, v := Said(c, IdentifierText(w)), Counted(w);
    SizedNameReads(w, s, c);
    OneReads(SizedName, s, v, c, d);
    FirstReads(SourceName, One(SizedName), s, v, c, d);
  }

  lemma OperatorReads(a: char, b: char, s: St, c: Ctx)
    requires Silent(s) && GoodPart(Operator(a, b)) && Starts(s.src, s.cur, [a, b])
    ensures Scans(OperatorTable, s, [a, b], c, SaidOperator(c, Entry(OPERATORS, Both(a, b))))
  {
    hide OPERATORS, Find, RunSym, Scans, Entry, SaidOperator, OperatorText;
    assert s.src[s.cur..s.cur + 2][0] == a;
    assert s.src[s.cur..s.cur + 2][1] == b;
    TerminalReads(OperatorTable, s, [a, b], c);
  }

  lemma BuiltinReads(ch: char, s: St, c: Ctx)
    requires Silent(s) && InTable(BUILTINS, First(ch)) && Starts(s.src, s.cur, [ch])
    ensures Scans(BuiltinTable, s, [ch], c, Said(c, Entry(BUILTINS, First(ch))))
  {
    hide BUILTINS, Find, RunSym, Scans, Entry, Said;
    assert s.src[s.cur..s.cur + 1][0] == ch;
    TerminalReads(BuiltinTable, s, [ch], c);
  }

  lemma SubstitutionReads(ch: char, s: St, c: Ctx)
    requires Silent(s) && InTable(SUBSTITUTIONS, Second(ch)) && Starts(s.src, s.cur, [ch])
    ensures Scans(SubstitutionTable, s, [ch], c, SaidSubstitution(c, Entry(SUBSTITUTIONS, Second(ch))))
  {
    hide SUBSTITUTIONS, Find, RunSym, Scans, Entry, SaidSubstitution, SubstitutionText;
    assert s.src[s.cur..s.cur + 1][0] == ch;
    TerminalReads(SubstitutionTable, s, [ch], c);
  }
}
