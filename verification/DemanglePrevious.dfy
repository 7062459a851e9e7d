/** The previous name, which constructors read back from the buffer: it is inside unless something did not fit. */
module DemanglePrevious {
  import opened DemangleGrammar
  import opened DemangleSpec

  /** The previous name has been written, unless something did not fit. */
  predicate NameWritten(o: Out) {
    o.overflowed || o.prevLen <= 0 || 0 <= o.prevName <= o.prevName + o.prevLen <= o.cur
  }

  /** Then printing it again reads characters that are in the buffer. */
  lemma PreviousIsInside(o: Out, i: nat)
    requires OkOut(o) && NameWritten(o) && !o.overflowed && i < o.prevLen
    ensures o.prevName + i < o.cur < |o.buf| && At(o.buf, o.prevName + i) == o.buf[o.prevName + i]
  {
  }

  // ---------- when it is not inside ----------

  /** The positions of the buffer at which AppendCopy looks: one for each character that it has room for. */
  function Looked(o: Out, from: nat, len: nat): seq<nat>
    requires OkOut(o)
    decreases len
  {
    if len > 0 && o.cur + 1 < |o.buf| then [from] + Looked(Put(o, At(o.buf, from)), from + 1, len - 1) else []
  }

  lemma {:induction false} LookedAt(o: Out, from: nat, len: nat)
    requires OkOut(o)
    ensures var ps, room := Looked(o, from, len), |o.buf| - 1 - o.cur;
            |ps| == (if len < room then len else room) && forall i :: 0 <= i < |ps| ==> ps[i] == from + i
    decreases len
  {
    if len > 0 && o.cur + 1 < |o.buf| { LookedAt(Put(o, At(o.buf, from)), from + 1, len - 1); }
  }

  /** The copy looks behind the buffer exactly if the name does not end inside and the cursor stands so far before it
      that there is room for more than the buffer has. */
  lemma CopyLeavesBuffer(o: Out, from: nat, len: nat)
    requires OkOut(o) && from < |o.buf|
    ensures (exists p :: p in Looked(o, from, len) && p >= |o.buf|) <==> from + len > |o.buf| && o.cur + 1 < from
  {
    hide Looked;
    LookedAt(o, from, len);
    var ps := Looked(o, from, len);
    if from + len > |o.buf| && o.cur + 1 < from {
      assert ps[|ps| - 1] in ps;
    }
  }

  /** How the cursor gets there: a separator that did not fit is taken back all the same. With a name of two letters in
      the last of four places, a constructor that comes next looks at position 4. */
  lemma CancelledSeparator(s: St)
    requires Ok(s) && s.append && s.nest >= 1 && |s.out.buf| == 4 && s.out.overflowed
    requires s.out.cur == 3 && s.out.prevName == 3 && s.out.prevLen == 2
    ensures var o := CancelSeparator(Separate(s)).out;
            Separate(s).out.cur == 3 && o.cur == 1 && o.prevName == 3 && Looked(o, o.prevName, o.prevLen) == [3, 4]
  {
    var o := CancelSeparator(Separate(s)).out;
    LookedAt(o, 3, 2);
    assert Looked(o, 3, 2) == [3, 4];
  }

  lemma {:induction false} AppendLength(o: Out, w: string)
    requires OkOut(o)
    ensures var t := Append(o, w); t.overflowed || t.cur == o.cur + |w|
    decreases |w|
  {
    if w != "" && o.cur + 1 < |o.buf| { AppendLength(Put(o, w[0]), w[1..]); }
  }

  lemma {:induction false} AppendCopyLength(o: Out, from: nat, len: nat)
    requires OkOut(o)
    ensures var t := AppendCopy(o, from, len); t.overflowed || t.cur == o.cur + len
    decreases len
  {
    if len > 0 && o.cur + 1 < |o.buf| { AppendCopyLength(Put(o, At(o.buf, from)), from + 1, len - 1); }
  }

  lemma {:induction false} AppendOverflows(o: Out, w: string)
    requires OkOut(o) && o.overflowed
    ensures Append(o, w).overflowed
    decreases |w|
  {
    if w != "" && o.cur + 1 < |o.buf| { AppendOverflows(Put(o, w[0]), w[1..]); }
  }

  lemma SpacedLength(o: Out, ch: char)
    requires OkOut(o)
    ensures var t := Spaced(o, ch); (o.overflowed ==> t.overflowed) && (t.overflowed || t.cur >= o.cur)
  {
    AppendLength(o, " ");
    if o.overflowed { AppendOverflows(o, " "); }
    hide Append;
  }

  lemma PrintKeepsName(s: St, w: string)
    requires Ok(s) && NameWritten(s.out)
    ensures NameWritten(Print(s, w).out)
  {
    if s.append && w != "" {
      var o := Spaced(s.out, w[0]);
      SpacedLength(s.out, w[0]);
      var t := Remember(o, w[0], |w|);
      AppendLength(t, w);
      if t.overflowed { AppendOverflows(t, w); }
      hide Spaced, Append;
    }
  }

  lemma {:induction false} AppendCopyOverflows(o: Out, from: nat, len: nat)
    requires OkOut(o) && o.overflowed
    ensures AppendCopy(o, from, len).overflowed
    decreases len
  {
    if len > 0 && o.cur + 1 < |o.buf| { AppendCopyOverflows(Put(o, At(o.buf, from)), from + 1, len - 1); }
  }

  lemma PrintPreviousKeepsName(s: St)
    requires Ok(s) && NameWritten(s.out)
    ensures NameWritten(PrintPrevious(s).out)
  {
    if s.append && s.out.prevLen > 0 {
      var name, len := s.out.prevName, s.out.prevLen;
      var o := Spaced(s.out, s.out.buf[name]);
      SpacedLength(s.out, s.out.buf[name]);
      var t := Remember(o, o.buf[name], len);
      AppendCopyLength(t, name, len);
      if t.overflowed { AppendCopyOverflows(t, name, len); }
      hide Spaced, AppendCopy;
    }
  }

  /** The separator is taken back to the end of what was written before it. */
  lemma SeparatorKeepsName(s: St, t: St)
    requires Ok(s) && NameWritten(s.out) && Ok(t) && t == Restore(Separate(s), t)
    ensures NameWritten(CancelSeparator(t).out)
  {
    if s.nest >= 1 && s.append {
      var o := Remember(s.out, ':', 2);
      AppendLength(o, "::");
      if o.overflowed { AppendOverflows(o, "::"); }
      hide Append;
    }
  }

  lemma TerminalKeepsName(y: Sym, s: St)
    requires Ok(s) && NameWritten(s.out)
    ensures !RunTerminal(y, s).Fault? ==> NameWritten(RunTerminal(y, s).st.out)
  {
    hide Print, RunSizedName, PrintPrevious, RunNumeral, OperatorText, SubstitutionText, Find, BUILTINS, OPERATORS,
         SUBSTITUTIONS;
    match y
    case OperatorTable => OperatorKeepsName(s);
    case BuiltinTable =>
      if RunTerminal(y, s).Match? { PrintKeepsName(s, BUILTINS[Find(BUILTINS, 0, First(s.src[s.cur]))].long); }
    case SubstitutionTable => SubstitutionKeepsName(s);
    case SizedName => SizedNameKeepsName(s);
    case Suffix => PrintKeepsName(s, s.src[s.cur..]);
    case Emit(w) => PrintKeepsName(s, w);
    case EmitPrevious => PrintPreviousKeepsName(s);
    case Numeral(radix) => NumeralKeepsOut(radix, s);
    case _ =>
  }

  lemma NumeralKeepsOut(radix: Radix, s: St)
    requires Ok(s)
    ensures var r := RunNumeral(radix, s); !r.Fault? && r.st.out == s.out
  {
  }

  lemma OperatorKeepsName(s: St)
    requires Ok(s) && NameWritten(s.out)
    ensures var r := RunOperatorTable(s); !r.Fault? && NameWritten(r.st.out)
  {
    hide Print, Find, OPERATORS;
    if RunOperatorTable(s).Match? {
      var w := OPERATORS[Find(OPERATORS, 0, Both(s.src[s.cur], s.src[s.cur + 1]))].long;
      var s1 := Print(s, "operator");
      PrintKeepsName(s, "operator");
      PrintKeepsName(s1, " ");
      PrintKeepsName(if w != "" && IsLower(w[0]) then Print(s1, " ") else s1, w);
    }
  }

  lemma SubstitutionKeepsName(s: St)
    requires Ok(s) && NameWritten(s.out)
    ensures var r := RunSubstitutionTable(s); !r.Fault? && NameWritten(r.st.out)
  {
    hide Print, Find, SUBSTITUTIONS;
    if RunSubstitutionTable(s).Match? {
      var w := SUBSTITUTIONS[Find(SUBSTITUTIONS, 0, Second(s.src[s.cur]))].long;
      var s1 := Print(s, "std");
      PrintKeepsName(s, "std");
      PrintKeepsName(s1, "::");
      PrintKeepsName(Print(s1, "::"), w);
    }
  }

  lemma SizedNameKeepsName(s: St)
    requires Ok(s) && NameWritten(s.out)
    ensures var r := RunSizedName(s); !r.Fault? ==> NameWritten(r.st.out)
  {
    hide Print, IdentifierText, RunNumeral;
    NumeralKeepsOut(Decimal, s);
    var r := RunNumeral(Decimal, s);
    if r.Match? && 0 <= r.st.number <= Left(r.st) {
      PrintKeepsName(r.st, IdentifierText(s.src[r.st.cur..r.st.cur + r.st.number]));
    }
  }

  /** Every run keeps it, on every path. */
  lemma {:induction false} SymKeepsName(y: Sym, s: St)
    requires Ok(s) && NameWritten(s.out)
    ensures !RunSym(y, s).Fault? ==> NameWritten(RunSym(y, s).st.out)
    decreases |s.src| - s.cur, RankSym(y), SizeSym(y), 1
  {
    match y
    case N(n) => NtKeepsName(n, s);
    case Plus(m) => PlusKeepsName(m, s);
    case Opt(z) => SymKeepsName(z, s);
    case Quiet(_) =>
    case Nested(z) => SymKeepsName(z, s.(nest := 0));
    case Prefix => PrefixKeepsName(false, s.(nest := 0));
    case _ => TerminalKeepsName(y, s);
  }

  lemma {:induction false} PatKeepsName(p: Pat, s: St)
    requires Ok(s) && NameWritten(s.out)
    ensures !RunPat(p, s).Fault? ==> NameWritten(RunPat(p, s).st.out)
    decreases |s.src| - s.cur, RankPat(p), SizePat(p), 0
  {
    if p.Then? {
      SymKeepsName(p.head, s);
      if RunSym(p.head, s).Match? { PatKeepsName(p.tail, RunSym(p.head, s).st); }
    }
  }

  lemma {:induction false} NtKeepsName(n: Nonterminal, s: St)
    requires Ok(s) && NameWritten(s.out)
    ensures !RunNt(n, s).Fault? ==> NameWritten(RunNt(n, s).st.out)
    decreases |s.src| - s.cur, Level(n), 1, 0
  {
    hide RunNt, RunAlts, RunPat, Rule;
    NtUnfolds(n, s);
    AltsKeepName(n, Rule(n), s);
  }

  lemma {:induction false} AltsKeepName(n: Nonterminal, alts: Alts, s: St)
    requires Ok(s) && NameWritten(s.out) && Descends(alts, Level(n))
    ensures !RunAlts(n, alts, s).Fault? ==> NameWritten(RunAlts(n, alts, s).st.out)
    decreases |s.src| - s.cur, Level(n), 0, alts
  {
    if alts.Or? {
      AltsUnfold(n, alts, s);
      hide RunAlts, RunPat;
      PatKeepsName(alts.first, s);
      var r := RunPat(alts.first, s);
      if r.NoMatch? && alts.rest.Or? { AltsKeepName(n, alts.rest, Restore(s, r.st)); }
    }
  }

  lemma {:induction false} PlusKeepsName(n: Nonterminal, s: St)
    requires Ok(s) && NameWritten(s.out)
    ensures !RunPlus(n, s).Fault? ==> NameWritten(RunPlus(n, s).st.out)
    decreases |s.src| - s.cur, Level(n), 3, 0
  {
    NtKeepsName(n, s);
    if RunNt(n, s).Match? { StarKeepsName(n, RunNt(n, s).st); }
  }

  lemma {:induction false} StarKeepsName(n: Nonterminal, s: St)
    requires Ok(s) && NameWritten(s.out)
    ensures !RunStar(n, s).Fault? ==> NameWritten(RunStar(n, s).st.out)
    decreases |s.src| - s.cur, Level(n), 2, 0
  {
    StarUnfolds(n, s);
    hide RunNt, RunStar;
    NtKeepsName(n, s);
    if RunNt(n, s).Match? { StarKeepsName(n, RunNt(n, s).st); }
  }

  lemma {:induction false} PrefixKeepsName(has: bool, s: St)
    requires Ok(s) && NameWritten(s.out)
    ensures !RunPrefix(has, s).Fault? ==> NameWritten(RunPrefix(has, s).st.out)
    decreases |s.src| - s.cur, RankSym(Prefix), 2, 0
  {
    PrefixUnfolds(has, s);
    SeparateKeepsName(s);
    hide RunPrefix, RunNt, Separate, CancelSeparator;
    NtKeepsName(PrefixItem, Separate(s));
    var r := RunNt(PrefixItem, Separate(s));
    if r.Match? {
      PrefixKeepsName(true, Deeper(r.st));
    } else if r.NoMatch? {
      SeparatorKeepsName(s, r.st);
      if has { PrefixArgsKeepName(CancelSeparator(r.st)); }
    }
  }

  lemma SeparateKeepsName(s: St)
    requires Ok(s) && NameWritten(s.out)
    ensures NameWritten(Separate(s).out)
  {
    PrintKeepsName(s, "::");
    hide Print;
  }

  lemma {:induction false} PrefixArgsKeepName(s: St)
    requires Ok(s) && NameWritten(s.out)
    ensures !RunPrefixArgs(s).Fault? ==> NameWritten(RunPrefixArgs(s).st.out)
    decreases |s.src| - s.cur, RankSym(Prefix), 1, 0
  {
    PrefixArgsUnfold(s);
    hide RunPrefix, RunPrefixArgs, RunNt;
    NtKeepsName(TemplateArgs, s);
    if RunNt(TemplateArgs, s).Match? { PrefixKeepsName(false, RunNt(TemplateArgs, s).st); }
  }
}
