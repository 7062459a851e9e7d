/** Source names with a signed length: where the functions as written take the cursor, and the loop that this makes
    endless. */
module DemangleLength {
  import opened DemangleGrammar
  import opened DemangleSpec
  import opened DemangleDerivation
  import opened DemangleLookahead

  /** How a parsing function as written ends: it fails, or it leaves a state, whose cursor may stand anywhere. */
  datatype Outcome = Fails | Ends(st: St)

  /** The comparison with the length of the prefix is unsigned, so a negative number counts as a large one. */
  predicate AnonymousAhead(s: St)
    requires Ok(s)
  {
    (s.number < 0 || s.number > |ANONYMOUS|) && Starts(s.src, s.cur, ANONYMOUS)
  }

  /** ParseIdentifier, for any number. */
  function IdentifierStep(s: St): Outcome
    requires Ok(s)
  {
    if s.number == -1 || Left(s) < s.number then Fails
    else
      var t := if AnonymousAhead(s) then Print(s, "(anonymous namespace)")
               else if s.number > 0 then Print(s, s.src[s.cur..s.cur + s.number])
               else s;
      Ends(t.(cur := s.cur + s.number, number := -1))
  }

  /** ParseSourceName before it restores the state: ParseNumber, then ParseIdentifier. */
  function SourceNameStep(s: St): Outcome
    requires Ok(s)
  {
    match RunNumeral(Decimal, s)
    case Match(t, _) => IdentifierStep(t)
    case _ => Fails
  }

  // ---------- where the interpreter agrees ----------

  lemma IdentifierAgrees(s: St)
    requires Ok(s) && s.number >= -1
    ensures match RunIdentifier(s)
            case Match(t, _) => IdentifierStep(s) == Ends(t)
            case r => r == NoMatch(s) && IdentifierStep(s).Fails?
  {
    hide IdentifierText, AnonymousAhead, Print;
    if 0 <= s.number <= Left(s) {
      AnonymousAgrees(s);
      if s.number == 0 { PrintNothing(s); }
    }
  }

  lemma AnonymousAgrees(s: St)
    requires Ok(s) && 0 <= s.number <= Left(s)
    ensures var w := s.src[s.cur..s.cur + s.number];
            IdentifierText(w) == if AnonymousAhead(s) then "(anonymous namespace)" else w
  {
    if s.number > |ANONYMOUS| { TakeOfSlice(s.src, s.cur, s.cur + s.number, |ANONYMOUS|); }
  }

  lemma TakeOfSlice(w: string, a: nat, b: nat, n: nat)
    requires a <= b <= |w| && n <= b - a
    ensures w[a..b][..n] == w[a..a + n]
  {
  }

  lemma PrintNothing(s: St)
    requires Ok(s)
    ensures Print(s, "") == s
  {
  }

  /** Where no length is negative or too large for an int, the interpreter reads a source name as the code does. */
  lemma SourceNameAgrees(s: St)
    requires Ok(s) && !RunNt(SourceName, s).Fault?
    ensures match SourceNameStep(s)
            case Ends(t) => RunNt(SourceName, s).Match? && RunNt(SourceName, s).st == t
            case Fails => RunNt(SourceName, s) == NoMatch(s)
  {
    hide RunNt, RunIdentifier, IdentifierStep;
    SourceNameUnfolds(s);
    var r := RunNumeral(Decimal, s);
    assert r.NoMatch? ==> r.st.out == s.out;
    hide RunNumeral;
    if r.Match? && -1 <= r.st.number <= INT_MAX { IdentifierAgrees(r.st); }
    if RunNt(SourceName, s).NoMatch? { assert RunNt(SourceName, s).st == s; }
  }

  lemma SourceNameUnfolds(s: St)
    requires Ok(s)
    ensures var r, q := RunNt(SourceName, s), RunSizedName(s);
            (r.Match? == q.Match?) && (r.Fault? == q.Fault?) && (r.Match? ==> r.st == q.st)
            && (r.NoMatch? ==> r.st == Restore(s, q.st))
  {
    hide RunNt, RunSym, RunSizedName;
    OneUnfolds(SourceName, SizedName, s);
    TerminalUnfolds(SizedName, s);
  }

  // ---------- signed lengths ----------

  /** A sign and a digit stand at the cursor. */
  predicate Signed(s: St)
    requires Ok(s)
  {
    s.cur + 1 < |s.src| && s.src[s.cur] == 'n' && Digit(Decimal, s.src[s.cur + 1]) >= 0
  }

  /** The end of the digits behind the sign. */
  function SignedEnd(s: St): (q: nat)
    requires Ok(s) && Signed(s)
    ensures s.cur + 1 < q <= |s.src|
  {
    DigitsEnd(Decimal, s.src, s.cur + 1)
  }

  function SignedValue(s: St): int
    requires Ok(s) && Signed(s)
  {
    Value(Decimal, s.src[s.cur + 1..SignedEnd(s)])
  }

  lemma SignedNumeral(s: St)
    requires Ok(s) && Signed(s)
    ensures var r := RunNumeral(Decimal, s);
            r.Match? && r.st == s.(cur := SignedEnd(s), number := -SignedValue(s)) && SignedValue(s) >= 0
  {
    assert s.src[s.cur..s.cur + 1] == "n" && Skip(s, 'n').cur == s.cur + 1;
    ValueIsNatural(Decimal, s.src, s.cur + 1, SignedEnd(s));
    hide Value, Digit;
  }

  /** A sign, d digits and the value v. If v is 1 the source name fails; otherwise it succeeds, and its cursor is
      v places before the end of the digits. So it makes progress exactly if v <= d, stands still exactly if
      v == d + 1, and leaves the source in front exactly if v goes beyond the start of the source. */
  lemma SignedLength(s: St)
    requires Ok(s) && Signed(s)
    ensures var d, v := SignedEnd(s) - s.cur - 1, SignedValue(s);
            match SourceNameStep(s)
            case Fails => v == 1
            case Ends(t) =>
              v != 1 && t.src == s.src && t.cur == s.cur + 1 + d - v && OkOut(t.out) && t.nest == s.nest
              && (t.cur > s.cur <==> v <= d) && (t.cur == s.cur <==> v == d + 1) && (t.cur < 0 <==> v > s.cur + 1 + d)
  {
    SignedNumeral(s);
    hide RunNumeral, SignedValue, SignedEnd, Signed, Print;
  }

  /** The number at the cursor has no sign and is too large for an int. */
  predicate Oversized(s: St)
    requires Ok(s)
  {
    Value(Decimal, s.src[s.cur..DigitsEnd(Decimal, s.src, s.cur)]) > INT_MAX
  }

  /** A source name is faulty exactly where a sign stands before a value of 2 or more, or a value exceeds an int. */
  lemma SourceNameFaults(s: St)
    requires Ok(s)
    ensures RunNt(SourceName, s).Fault? <==> (Signed(s) && SignedValue(s) >= 2) || Oversized(s)
  {
    hide RunNt, RunSizedName, RunNumeral, Signed, SignedValue, Oversized;
    SourceNameUnfolds(s);
    SizedNameFaults(s);
    if Signed(s) {
      SignedNumeral(s);
      NotOversized(s);
    } else {
      UnsignedFaults(s);
    }
  }

  lemma SizedNameFaults(s: St)
    requires Ok(s)
    ensures var r := RunNumeral(Decimal, s);
            RunSizedName(s).Fault? <==> r.Match? && (r.st.number < -1 || r.st.number > INT_MAX)
  {
    hide Print, IdentifierText, Skip, DigitsEnd, Value;
  }

  lemma NotOversized(s: St)
    requires Ok(s) && Signed(s)
    ensures !Oversized(s)
  {
    hide Digit, SignedValue;
    NoDigit(s);
    NothingIsZero();
    assert s.src[s.cur..s.cur] == "";
  }

  lemma UnsignedFaults(s: St)
    requires Ok(s) && !Signed(s)
    ensures var r := RunNumeral(Decimal, s);
            r.Match? && (r.st.number < -1 || r.st.number > INT_MAX) <==> Oversized(s)
  {
    hide RunNumeral, Signed, DigitsEnd, Value;
    UnsignedNumeral(s);
  }

  lemma NoDigit(s: St)
    requires Ok(s) && Signed(s)
    ensures DigitsEnd(Decimal, s.src, s.cur) == s.cur
  {
  }

  lemma NothingIsZero()
    ensures Value(Decimal, "") == 0
  {
  }

  lemma UnsignedNumeral(s: St)
    requires Ok(s) && !Signed(s)
    ensures var r, q := RunNumeral(Decimal, s), DigitsEnd(Decimal, s.src, s.cur);
            if s.cur < |s.src| && s.src[s.cur] == 'n' then !r.Match? && q == s.cur
            else r.Match? == (q > s.cur) && (r.Match? ==> r.st.number == Value(Decimal, s.src[s.cur..q]) >= 0)
    ensures DigitsEnd(Decimal, s.src, s.cur) == s.cur ==>
              Value(Decimal, s.src[s.cur..DigitsEnd(Decimal, s.src, s.cur)]) == 0
  {
    assert s.cur < |s.src| ==> s.src[s.cur..s.cur + 1] == [s.src[s.cur]];
    ValueIsNatural(Decimal, s.src, s.cur, DigitsEnd(Decimal, s.src, s.cur));
  }

  /** Why progress is not enough for the interpreter to go on: from "n02" the step as written ends behind the sign. */
  lemma StepToSign(buf: seq<char>)
    requires buf != []
    ensures var r := SourceNameStep(Initial("_Zn02ab", buf).(cur := 2)); r.Ends? && r.st.cur == 3
  {
    hide SourceNameStep;
    var s := Initial("_Zn02ab", buf).(cur := 2);
    assert DigitsEnd(Decimal, s.src, 3) == 5;
    var w := s.src[3..5];
    assert w == "02" && w[..1] == "0" && "0"[..0] == "" && Value(Decimal, "0") == 0 && Value(Decimal, w) == 2;
    SignedLength(s);
  }

  /** But no source name of the grammar is a sign alone. */
  lemma ASignIsNoName(t: Tree)
    requires DerivesSym(N(SourceName), t)
    ensures Yield(t) != "n"
  {
    SourceNameTree(t);
    var name := t.body.a;
    hide DerivesSym;
    if Yield(t) == "n" { NoSignAlone(name); }
  }

  lemma SourceNameTree(t: Tree)
    requires DerivesSym(N(SourceName), t)
    ensures t.Node? && t.body.Pair? && DerivesSym(SizedName, t.body.a) && Yield(t) == Yield(t.body.a)
  {
    assert Rule(SourceName) == Or1(One(SizedName));
    OnlyOne(t.p, One(SizedName));
    assert DerivesPat(One(SizedName), t.body) && DerivesPat(Done, t.body.b) && Yield(t.body.b) == "";
  }

  lemma NoSignAlone(t: Tree)
    requires DerivesSym(SizedName, t)
    ensures Yield(t) != "n"
  {
    var w := t.a.w;
    assert Yield(t) == w + t.b.w && (w + t.b.w)[0] == w[0];
    assert AllDigits(Decimal, w) ==> w[0] in w && w[0] != 'n';
    assert !AllDigits(Decimal, w) ==> |w| >= 2;
  }

  lemma OnlyOne(p: Pat, q: Pat)
    requires IsAlternative(p, Or1(q))
    ensures p == q
  {
    assert !IsAlternative(p, Fail);
  }

  // ---------- the loop of the prefix ----------

  /** Where a signed number stands, everything that the prefix tries before the source name fails. */
  lemma OnlySourceName(s: St)
    requires Ok(s) && Signed(s)
    ensures RunNt(TemplateParam, s) == NoMatch(s) && RunNt(Substitution, s) == NoMatch(s)
    ensures RunNt(OperatorName, s) == NoMatch(s) && RunNt(CtorDtorName, s) == NoMatch(s)
  {
    hide RunNt;
    NtFails(TemplateParam, s);
    NtFails(Substitution, s);
    NtFails(CtorDtorName, s);
    NoSignedOperator(s);
  }

  lemma NoSignedOperator(s: St)
    requires Ok(s) && Signed(s)
    ensures RunNt(OperatorName, s) == NoMatch(s)
  {
    hide RunNt, RunAlts, RunPat, RunSym;
    NtUnfolds(OperatorName, s);
    var alts := Rule(OperatorName);
    AltsUnfold(OperatorName, alts, s);
    AltsUnfold(OperatorName, alts.rest, s);
    AltsUnfold(OperatorName, alts.rest.rest, s);
    PatFails(alts.first, s);
    PatFails(alts.rest.first, s);
    PatUnfolds(One(OperatorTable), s);
    TerminalUnfolds(OperatorTable, s);
    NoSignInTable(s);
    hide RunTerminal;
    assert Restore(s, RunPat(alts.first, s).st) == s && Restore(s, RunPat(alts.rest.first, s).st) == s;
  }

  lemma NoSignInTable(s: St)
    requires Ok(s) && Signed(s)
    ensures RunTerminal(OperatorTable, s) == NoMatch(s)
  {
  }

  /** So one round of its loop there is a separator, a source name and a deeper level. */
  function PrefixRound(s: St): Outcome
    requires Ok(s)
  {
    match SourceNameStep(Separate(s))
    case Ends(t) => Ends(Deeper(t))
    case Fails => Fails
  }

  /** The state after k rounds. */
  function Rounds(s: St, k: nat): Outcome
    requires Ok(s)
  {
    if k == 0 then Ends(s)
    else
      match Rounds(s, k - 1)
      case Ends(t) => if Ok(t) then PrefixRound(t) else Fails
      case Fails => Fails
  }

  /** With a value that is one more than the number of its digits, the loop does not end: after every number of rounds
      it stands where it began, and the next round succeeds as well. */
  lemma {:induction false} PrefixNeverEnds(s: St, k: nat)
    requires Ok(s) && Signed(s) && SignedValue(s) == SignedEnd(s) - s.cur
    ensures var r := Rounds(s, k); r.Ends? && Ok(r.st) && r.st.src == s.src && r.st.cur == s.cur
  {
    hide SourceNameStep, Signed, SignedEnd, SignedValue, PrefixRound;
    if k > 0 {
      PrefixNeverEnds(s, k - 1);
      var t := Rounds(s, k - 1).st;
      SamePlace(s, t);
      RoundStandsStill(t);
    }
  }

  lemma RoundStandsStill(s: St)
    requires Ok(s) && Signed(s) && SignedValue(s) == SignedEnd(s) - s.cur
    ensures var r := PrefixRound(s); r.Ends? && Ok(r.st) && r.st.src == s.src && r.st.cur == s.cur
  {
    hide SourceNameStep, Signed, SignedEnd, SignedValue, Separate;
    SamePlace(s, Separate(s));
    SignedLength(Separate(s));
  }

  lemma SamePlace(s: St, t: St)
    requires Ok(s) && Ok(t) && t.src == s.src && t.cur == s.cur && Signed(s)
    ensures Signed(t) && SignedEnd(t) == SignedEnd(s) && SignedValue(t) == SignedValue(s)
  {
  }

  // ---------- a run that gets there ----------

  lemma UnqualifiedFaults(s: St)
    requires Ok(s) && Signed(s) && SignedValue(s) >= 2
    ensures RunNt(UnqualifiedName, s).Fault?
  {
    hide RunNt, RunAlts, RunPat, RunSym, Signed, SignedValue;
    OnlySourceName(s);
    SourceNameFaults(s);
    var alts := Rule(UnqualifiedName);
    NtUnfolds(UnqualifiedName, s);
    NtSym(OperatorName, s);
    OneFails(N(OperatorName), s);
    NextAlternative(UnqualifiedName, alts, s);
    NtSym(CtorDtorName, s);
    OneFails(N(CtorDtorName), s);
    NextAlternative(UnqualifiedName, alts.rest, s);
    NtSym(SourceName, s);
    HeadFaults(One(N(SourceName)), s);
    AltsUnfold(UnqualifiedName, alts.rest.rest, s);
  }

  /** Wherever the prefix meets a sign before a value of 2 or more, its item is faulty. */
  lemma SignedItemFaults(s: St)
    requires Ok(s) && Signed(s) && SignedValue(s) >= 2
    ensures RunNt(PrefixItem, s).Fault?
  {
    hide RunNt, RunAlts, RunPat, RunSym, Signed, SignedValue;
    OnlySourceName(s);
    UnqualifiedFaults(s);
    NtSym(UnqualifiedName, s);
    HeadFaults(One(N(UnqualifiedName)), s);
    FirstFaults(UnscopedName, s);
    var alts := Rule(PrefixItem);
    NtUnfolds(PrefixItem, s);
    NtSym(TemplateParam, s);
    OneFails(N(TemplateParam), s);
    NextAlternative(PrefixItem, alts, s);
    NtSym(Substitution, s);
    OneFails(N(Substitution), s);
    NextAlternative(PrefixItem, alts.rest, s);
    NtSym(UnscopedName, s);
    HeadFaults(One(N(UnscopedName)), s);
    AltsUnfold(PrefixItem, alts.rest.rest, s);
  }

  lemma SignedPrefixFaults(s: St)
    requires Ok(s) && Signed(s) && SignedValue(s) >= 2
    ensures RunSym(Prefix, s).Fault?
  {
    hide RunNt, RunPrefix, RunSym, Signed, SignedValue;
    var t := s.(nest := 0);
    SamePlace(s, t);
    SignedItemFaults(t);
    PrefixUnfolds(false, t);
    PrefixSym(s);
  }

  /** A nested name that begins with such a number is faulty. */
  lemma SignedNestedNameFaults(s: St)
    requires Ok(s) && s.cur < |s.src| && s.src[s.cur] == 'N'
    requires var t := s.(cur := s.cur + 1); Signed(t) && SignedValue(t) >= 2
    ensures RunNt(NestedName, s).Fault?
  {
    hide RunNt, RunAlts, RunPat, RunSym, RunPrefix, SignedValue;
    var t := s.(cur := s.cur + 1);
    var p := Four(Lit("N"), Opt(CVQualifiers), Prefix, Lit("E"));
    assert s.src[s.cur..s.cur + 1] == "N";
    TerminalUnfolds(Lit("N"), s);
    SymFails(CVQualifiers, t);
    OptFails(CVQualifiers, t);
    SignedPrefixFaults(t);
    HeadFaults(p.tail.tail, t);
    PatUnfolds(p.tail, t);
    PatUnfolds(p, s);
    FirstFaults(NestedName, s);
  }

  lemma OptFails(y: Sym, s: St)
    requires Ok(s) && Nothing(s, RunSym(y, s))
    ensures RunSym(Opt(y), s) == Match(s, Eps)
  {
    assert Restore(s, RunSym(y, s).st) == s;
  }

  lemma PrefixSym(s: St)
    requires Ok(s)
    ensures RunSym(Prefix, s) == LevelBack(s, RunPrefix(false, s.(nest := 0)))
  {
    hide RunPrefix;
  }

  lemma EncodingFaults(s: St)
    requires Ok(s) && RunNt(NestedName, s).Fault?
    ensures RunNt(Encoding, s).Fault?
  {
    hide RunNt, RunPat, RunSym;
    NtSym(NestedName, s);
    HeadFaults(One(N(NestedName)), s);
    FirstFaults(Name, s);
    NtSym(Name, s);
    HeadFaults(Two(N(Name), N(BareFunctionType)), s);
    FirstFaults(Encoding, s);
  }

  lemma MangledNameFaults(s: St)
    requires Ok(s) && Starts(s.src, s.cur, "_Z") && RunNt(Encoding, s.(cur := s.cur + 2)).Fault?
    ensures RunNt(MangledName, s).Fault?
  {
    hide RunNt, RunPat, RunSym;
    var p, t := Three(Lit("_Z"), N(Encoding), Suffix), s.(cur := s.cur + 2);
    TerminalUnfolds(Lit("_Z"), s);
    NtSym(Encoding, t);
    HeadFaults(p.tail, t);
    PatUnfolds(p, s);
    FirstFaults(MangledName, s);
  }

  /** The name "_ZNn2E" leads there: at the cursor 3 the prefix meets the number "n2", and there its loop does not
      end. */
  lemma EndlessName(buf: seq<char>, k: nat)
    requires buf != []
    ensures RunNt(MangledName, Initial("_ZNn2E", buf)).Fault?
    ensures var s := Initial("_ZNn2E", buf).(cur := 3, nest := 0);
            var r := Rounds(s, k);
            r.Ends? && Ok(r.st) && r.st.cur == 3
  {
    hide RunNt, Rounds;
    var s := Initial("_ZNn2E", buf);
    var t := s.(cur := 3, nest := 0);
    assert DigitsEnd(Decimal, s.src, 4) == 5;
    assert s.src[4..5] == "2" && "2"[..0] == "";
    assert Value(Decimal, "2") == 2;
    PrefixNeverEnds(t, k);
    SignedNestedNameFaults(s.(cur := 2));
    EncodingFaults(s.(cur := 2));
    MangledNameFaults(s);
  }
}
