/** What the demangler prints: the translation of the derivation, if the buffer is large enough, and how large
    that is. */
module DemangleOutput {
  import opened DemangleGrammar
  import opened DemangleSpec

  // ---------- the translation, on strings ----------

  /** The text so far, and the last identifier in it. */
  datatype Ctx = Ctx(text: string, previous: string)

  /** Add w, behind a space where two '<' would meet. */
  function Said(c: Ctx, w: string): Ctx {
    if w == "" then c
    else Ctx(c.text + (if w[0] == '<' && c.text != "" && c.text[|c.text| - 1] == '<' then " " else "") + w,
             if IsAlpha(w[0]) || w[0] == '_' then w else c.previous)
  }

  function Entry(table: seq<Abbreviation>, key: Key): string {
    var i := Find(table, 0, key);
    if i < |table| then table[i].long else ""
  }

  function SaidOperator(c: Ctx, w: string): Ctx {
    Said(if w != "" && IsLower(w[0]) then Said(Said(c, "operator"), " ") else Said(c, "operator"), w)
  }

  function SaidSubstitution(c: Ctx, w: string): Ctx {
    if w != "" then Said(Said(Said(c, "std"), "::"), w) else Said(c, "std")
  }

  /** The text of a derivation: identifiers, operators and types spelled out, the parts of a qualified name
      joined by "::", parameter types and template arguments left out, and constructors called by the identifier
      printed last. There is no printing mode, no nest level and no buffer in it. */
  function Spell(y: Sym, t: Tree, c: Ctx): Ctx
    decreases t, SizeSym(y)
  {
    match y
    case N(n) => if t.Node? then SpellPat(t.p, t.body, c) else c
    case SizedName => if t.Pair? && t.b.Text? then Said(c, IdentifierText(t.b.w)) else c
    case OperatorTable => if t.Text? && |t.w| == 2 then SaidOperator(c, Entry(OPERATORS, Both(t.w[0], t.w[1]))) else c
    case BuiltinTable => if t.Text? && |t.w| == 1 then Said(c, Entry(BUILTINS, First(t.w[0]))) else c
    case SubstitutionTable =>
      if t.Text? && |t.w| == 1 then SaidSubstitution(c, Entry(SUBSTITUTIONS, Second(t.w[0]))) else c
    case Opt(z) => if t.Eps? then c else Spell(z, t, c)
    case Plus(m) => if t.Pair? then SpellStar(m, t.b, Spell(N(m), t.a, c)) else c
    case Prefix => SpellPrefix(true, t, c)
    case Suffix => if t.Text? then Said(c, t.w) else c
    case Emit(w) => Said(c, w)
    case EmitPrevious => Said(c, c.previous)
    case Quiet(_) => c
    case Nested(z) => Spell(z, t, c)
    case _ => c
  }

  function SpellPat(p: Pat, t: Tree, c: Ctx): Ctx
    decreases t, SizePat(p)
  {
    if p.Then? && t.Pair? then SpellPat(p.tail, t.b, Spell(p.head, t.a, c)) else c
  }

  function SpellStar(m: Nonterminal, t: Tree, c: Ctx): Ctx
    decreases t, 0
  {
    if t.Pair? then SpellStar(m, t.b, Spell(N(m), t.a, c)) else c
  }

  /** The first item is not preceded by "::", nor are template arguments. */
  function SpellPrefix(first: bool, t: Tree, c: Ctx): Ctx
    decreases t, 0
  {
    if t.Pair? && t.a.Node? then
      if t.a.n == PrefixItem
      then SpellPrefix(false, t.b, Spell(N(PrefixItem), t.a, if first then c else Said(c, "::")))
      else SpellPrefix(false, t.b, Spell(N(TemplateArgs), t.a, c))
    else c
  }

  // ---------- the buffer shows the text ----------

  /** The text is in the buffer up to the cursor, nothing has been lost, and the previous name is in it. */
  predicate Shows(o: Out, c: Ctx) {
    OkOut(o) && !o.overflowed && o.buf[..o.cur] == c.text
    && (if o.prevLen > 0 then o.prevName + o.prevLen <= o.cur && o.buf[o.prevName..o.prevName + o.prevLen] == c.previous
        else c.previous == "")
  }

  /** The text up to where o ended is still there. */
  predicate TextKept(o: Out, t: Out) {
    |t.buf| == |o.buf| && 0 <= o.cur <= |o.buf| && t.buf[..o.cur] == o.buf[..o.cur]
  }

  lemma {:induction false} AppendText(o: Out, w: string)
    requires OkOut(o) && !o.overflowed && o.cur + |w| < |o.buf|
    ensures var t := Append(o, w);
            !t.overflowed && t.cur == o.cur + |w| && t.buf[..t.cur] == o.buf[..o.cur] + w
    decreases |w|
  {
    if w != "" {
      var o1 := Put(o, w[0]);
      AppendText(o1, w[1..]);
      assert o1.buf[..o1.cur] == o.buf[..o.cur] + [w[0]];
      assert o.buf[..o.cur] + [w[0]] + w[1..] == o.buf[..o.cur] + w;
    }
  }

  lemma {:induction false} AppendCopyIsAppend(o: Out, from: nat, len: nat)
    requires OkOut(o) && from + len <= o.cur && o.cur + len < |o.buf|
    ensures AppendCopy(o, from, len) == Append(o, o.buf[from..from + len])
    decreases len
  {
    if len > 0 {
      var o1 := Put(o, o.buf[from]);
      AppendCopyIsAppend(o1, from + 1, len - 1);
      assert o1.buf[from + 1..from + len] == o.buf[from..from + len][1..];
    }
  }

  lemma SpacedShows(o: Out, c: Ctx, ch: char)
    requires Shows(o, c) && o.cur + 1 < |o.buf|
    ensures var t := Spaced(o, ch);
            !t.overflowed && o.cur <= t.cur <= o.cur + 1 && TextKept(o, t)
            && t.buf[..t.cur] == c.text + (if ch == '<' && c.text != "" && c.text[|c.text| - 1] == '<' then " " else "")
  {
    AppendText(o, " ");
    var t := Append(o, " ");
    assert t.buf[..t.cur][..o.cur] == o.buf[..o.cur];
  }

  lemma SayShows(o: Out, c: Ctx, w: string)
    requires Shows(o, c) && w != "" && o.cur + |w| + 1 < |o.buf|
    ensures var t := Say(o, w);
            Shows(t, Said(c, w)) && TextKept(o, t) && o.cur <= t.cur <= o.cur + |w| + 1
            && (t.prevLen == o.prevLen || t.prevLen == |w|)
  {
    hide Append, IsAlpha, Say, TextKept, Spaced;
    SpacedShows(o, c, w[0]);
    var o1 := Spaced(o, w[0]);
    var o2 := Remember(o1, w[0], |w|);
    AppendText(o2, w);
    var t := Append(o2, w);
    SayUnfolds(o, w);
    AppendKeeps(o1, o2, t, w);
    TextKeptTrans(o, o1, t);
    NameShown(o, o1, c, w, t);
  }

  /** The new text, and behind it the name that is remembered. */
  lemma NameShown(o: Out, o1: Out, c: Ctx, w: string, t: Out)
    requires Shows(o, c) && w != "" && Appended(o, o1) && Appended(Remember(o1, w[0], |w|), t) && TextKept(o, t)
    requires o1.buf[..o1.cur]
          == c.text + (if w[0] == '<' && c.text != "" && c.text[|c.text| - 1] == '<' then " " else "")
    requires !t.overflowed && t.cur == o1.cur + |w| && t.buf[..t.cur] == o1.buf[..o1.cur] + w && o.cur <= o1.cur
    requires t.buf[o1.cur..t.cur] == w
    ensures Shows(t, Said(c, w)) && (t.prevLen == o.prevLen || t.prevLen == |w|)
  {
    hide IsAlpha, TextKept, Appended;
    RememberIs(o, o1, w, t);
    assert t.buf[..t.cur] == Said(c, w).text;
    if !(IsAlpha(w[0]) || w[0] == '_') && o.prevLen > 0 {
      NameKept(o, t, o.prevName, o.prevLen);
      assert Shows(t, Said(c, w));
    }
  }

  lemma RememberIs(o: Out, o1: Out, w: string, t: Out)
    requires OkOut(o) && w != "" && Appended(o, o1) && Appended(Remember(o1, w[0], |w|), t)
    ensures OkOut(t) && |t.buf| == |o.buf|
    ensures if IsAlpha(w[0]) || w[0] == '_' then t.prevName == o1.cur && t.prevLen == |w|
            else t.prevName == o.prevName && t.prevLen == o.prevLen
  {
    hide IsAlpha;
  }

  lemma SayUnfolds(o: Out, w: string)
    requires OkOut(o) && w != ""
    ensures Say(o, w) == Append(Remember(Spaced(o, w[0]), w[0], |w|), w)
  {
  }

  lemma TextKeptTrans(o: Out, t: Out, u: Out)
    requires TextKept(o, t) && TextKept(t, u) && o.cur <= t.cur
    ensures TextKept(o, u)
  {
    assert u.buf[..o.cur] == u.buf[..t.cur][..o.cur];
    assert t.buf[..o.cur] == t.buf[..t.cur][..o.cur];
  }

  lemma SliceOfTake(s: seq<char>, n: nat, a: nat, b: nat)
    requires a <= b <= n <= |s|
    ensures s[..n][a..b] == s[a..b]
  {
  }

  lemma NameKept(o: Out, t: Out, at: nat, len: nat)
    requires TextKept(o, t) && at + len <= o.cur
    ensures t.buf[at..at + len] == o.buf[at..at + len]
  {
    SliceOfTake(t.buf, o.cur, at, at + len);
    SliceOfTake(o.buf, o.cur, at, at + len);
  }

  lemma AppendKeeps(o1: Out, o2: Out, t: Out, w: string)
    requires OkOut(o1) && o2.buf == o1.buf && o2.cur == o1.cur && t.cur == o1.cur + |w| <= |t.buf|
    requires t.buf[..t.cur] == o2.buf[..o2.cur] + w
    ensures t.buf[..o1.cur] == o1.buf[..o1.cur] && t.buf[o1.cur..t.cur] == w
  {
    assert t.buf[..o1.cur] == t.buf[..t.cur][..o1.cur];
    assert t.buf[o1.cur..t.cur] == t.buf[..t.cur][o1.cur..];
  }

  lemma SayPreviousIsSay(o: Out, c: Ctx)
    requires Shows(o, c) && o.prevLen > 0 && o.cur + o.prevLen + 1 < |o.buf|
    ensures SayPrevious(o) == Say(o, c.previous) && |c.previous| == o.prevLen
  {
    var p, l := o.prevName, o.prevLen;
    var w := c.previous;
    hide Append, AppendCopy, Spaced, TextKept;
    assert w[0] == o.buf[p];
    SpacedShows(o, c, w[0]);
    var o1 := Spaced(o, w[0]);
    NameKept(o, o1, p, l);
    assert o1.buf[p] == o1.buf[p..p + l][0];
    AppendCopyIsAppend(Remember(o1, w[0], l), p, l);
  }

  lemma EntryShort(table: seq<Abbreviation>, key: Key)
    ensures |Entry(table, key)| <= 18
  {
  }
}
