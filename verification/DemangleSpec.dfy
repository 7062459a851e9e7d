/** What one run of the demangler computes: an interpreter of the grammar over the parser's state. */
module DemangleSpec {
  import opened DemangleGrammar

  /** The output: the buffer, the cursor in it, the previous name's place, and whether something did not fit.
      No previous name is position -1. */
  datatype Out = Out(buf: seq<char>, cur: int, prevName: int, prevLen: int, overflowed: bool)

  /** The parser's state. The ends of source and buffer are their lengths. */
  datatype St = St(src: string, cur: int, out: Out, nest: int, number: int, append: bool)

  /** A derivation: terminals carry the text they read, nodes the alternative they took. */
  datatype Tree = Eps | Text(w: string) | Node(n: Nonterminal, p: Pat, body: Tree) | Pair(a: Tree, b: Tree)

  /** Fault: a source name announces a length that is negative or does not fit the counter. */
  datatype Res = Match(st: St, tree: Tree) | NoMatch(st: St) | Fault

  const INT_MAX := 0x7FFF_FFFF

  predicate OkOut(o: Out) {
    0 <= o.cur < |o.buf| && (o.prevLen > 0 ==> 0 <= o.prevName < |o.buf|)
  }

  predicate Ok(s: St) {
    0 <= s.cur <= |s.src| && OkOut(s.out)
  }

  /** The state t, but with what has been written to the buffer since then. */
  function Restore(t: St, now: St): (r: St)
    ensures r.src == t.src && r.cur == t.cur && r.append == t.append && r.nest == t.nest
  {
    t.(out := t.out.(buf := now.out.buf))
  }

  /** The number of characters left. */
  function Left(s: St): nat
    requires Ok(s)
  {
    |s.src| - s.cur
  }

  // ---------- output ----------

  predicate IsLower(c: char) { 'a' <= c <= 'z' }
  predicate IsAlpha(c: char) { 'a' <= c <= 'z' || 'A' <= c <= 'Z' }

  /** Written by appending only. */
  predicate Appended(o: Out, t: Out) {
    OkOut(t) && t == o.(buf := t.buf, cur := t.cur, overflowed := t.overflowed) && |t.buf| == |o.buf|
  }

  function Put(o: Out, c: char): (t: Out)
    requires OkOut(o) && o.cur + 1 < |o.buf|
    ensures Appended(o, t)
  {
    o.(buf := o.buf[o.cur := c], cur := o.cur + 1)
  }

  function Terminate(o: Out): (t: Out)
    requires OkOut(o)
    ensures Appended(o, t)
  {
    if o.overflowed then o else o.(buf := o.buf[o.cur := '\0'])
  }

  /** Write w at the cursor as far as it fits. */
  function Append(o: Out, w: string): (t: Out)
    requires OkOut(o)
    ensures Appended(o, t)
    decreases |w|
  {
    if w == "" then Terminate(o)
    else if o.cur + 1 < |o.buf| then Append(Put(o, w[0]), w[1..])
    else o.(overflowed := true)
  }

  /** The character at position i of the buffer; past its end, which only a run that has overflowed can
      look at, NUL. */
  function At(buf: seq<char>, i: nat): char { if i < |buf| then buf[i] else '\0' }

  /** Write the `len` characters of the buffer that start at `from` at the cursor, one by one. */
  function AppendCopy(o: Out, from: nat, len: nat): (t: Out)
    requires OkOut(o)
    ensures Appended(o, t)
    decreases len
  {
    if len == 0 then Terminate(o)
    else if o.cur + 1 < |o.buf| then AppendCopy(Put(o, At(o.buf, from)), from + 1, len - 1)
    else o.(overflowed := true)
  }

  lemma CopyUnfolds(o: Out, from: nat, len: nat)
    requires OkOut(o)
    ensures AppendCopy(o, from, len) ==
      if len == 0 then Terminate(o)
      else if o.cur + 1 < |o.buf| then AppendCopy(Put(o, At(o.buf, from)), from + 1, len - 1)
      else o.(overflowed := true)
  {
  }

  /** A space first, where two '<' would meet. */
  function Spaced(o: Out, c: char): (t: Out)
    requires OkOut(o)
    ensures Appended(o, t)
  {
    if c == '<' && 0 < o.cur && o.buf[o.cur - 1] == '<' then Append(o, " ") else o
  }

  /** Remember the name about to be printed if it starts like an identifier. */
  function Remember(o: Out, c: char, len: int): (t: Out)
    requires OkOut(o)
    ensures OkOut(t) && |t.buf| == |o.buf|
  {
    if IsAlpha(c) || c == '_' then o.(prevName := o.cur, prevLen := len) else o
  }

  function Say(o: Out, w: string): (t: Out)
    requires OkOut(o) && w != ""
    ensures OkOut(t) && |t.buf| == |o.buf|
  {
    Append(Remember(Spaced(o, w[0]), w[0], |w|), w)
  }

  function SayPrevious(o: Out): (t: Out)
    requires OkOut(o) && o.prevLen > 0
    ensures OkOut(t) && |t.buf| == |o.buf|
  {
    var t := Spaced(o, o.buf[o.prevName]);
    AppendCopy(Remember(t, t.buf[o.prevName], o.prevLen), o.prevName, o.prevLen)
  }

  /** Only the output has changed, and only with printing on. */
  predicate Printed(s: St, t: St) {
    Ok(t) && t == s.(out := t.out) && |t.out.buf| == |s.out.buf| && (!s.append ==> t == s)
  }

  function Print(s: St, w: string): (t: St)
    requires Ok(s)
    ensures Printed(s, t)
  {
    if s.append && w != "" then s.(out := Say(s.out, w)) else s
  }

  /** Print the last identifier again. */
  function PrintPrevious(s: St): (t: St)
    requires Ok(s)
    ensures Printed(s, t)
  {
    if s.append && s.out.prevLen > 0 then s.(out := SayPrevious(s.out)) else s
  }

  function Separate(s: St): (t: St)
    requires Ok(s)
    ensures Printed(s, t)
  {
    if s.nest >= 1 then Print(s, "::") else s
  }

  function CancelSeparator(s: St): (t: St)
    requires Ok(s)
    ensures Printed(s, t)
  {
    if s.nest >= 1 && s.append && s.out.cur >= 2
    then s.(out := s.out.(cur := s.out.cur - 2, buf := s.out.buf[s.out.cur - 2 := '\0'])) else s
  }

  function Deeper(s: St): St { if s.nest > -1 then s.(nest := s.nest + 1) else s }

  // ---------- terminals ----------

  /** What any run keeps, failed or not: it stays within the source and the buffer, and it prints nothing with
      printing off. */
  predicate Inside(s: St, t: St) {
    Ok(t) && t.src == s.src && |t.out.buf| == |s.out.buf| && (!s.append ==> t.out == s.out)
  }

  /** A match moves on, and puts the append mode and, if `level`, the nest level back. */
  predicate Kept(s: St, r: Res, moves: bool, level: bool) {
    (!r.Fault? ==> Inside(s, r.st))
    && (r.Match? ==> s.cur <= r.st.cur && (moves ==> s.cur < r.st.cur) && r.st.append == s.append
                     && (level ==> r.st.nest == s.nest))
  }

  predicate Starts(src: string, at: nat, w: string) {
    at + |w| <= |src| && src[at..at + |w|] == w
  }

  function RunLit(w: string, s: St): (r: Res)
    requires Ok(s)
    ensures Kept(s, r, w != "", true)
    ensures r.NoMatch? ==> r.st == s
  {
    if Starts(s.src, s.cur, w) then Match(s.(cur := s.cur + |w|), Text(w)) else NoMatch(s)
  }

  function RunClass(cs: string, s: St): (r: Res)
    requires Ok(s)
    ensures Kept(s, r, true, true)
    ensures r.NoMatch? ==> r.st == s
  {
    if s.cur < |s.src| && s.src[s.cur] in cs then Match(s.(cur := s.cur + 1), Text([s.src[s.cur]])) else NoMatch(s)
  }

  /** The optional character c. */
  function Skip(s: St, c: char): (t: St)
    requires Ok(s)
    ensures Ok(t) && s.cur <= t.cur && t == s.(cur := t.cur)
  {
    if Starts(s.src, s.cur, [c]) then s.(cur := s.cur + 1) else s
  }

  function Base(r: Radix): nat { match r case Decimal => 10 case Hexadecimal => 16 case Base36 => 36 }

  /** The value of a digit, or -1. */
  function Digit(r: Radix, c: char): int {
    if '0' <= c <= '9' then c as int - '0' as int
    else if r == Hexadecimal && 'a' <= c <= 'f' then c as int - 'a' as int + 10
    else if r == Base36 && 'A' <= c <= 'Z' then c as int - 'A' as int + 10
    else -1
  }

  function Value(r: Radix, w: string): int {
    if w == "" then 0 else Value(r, w[..|w| - 1]) * Base(r) + Digit(r, w[|w| - 1])
  }

  lemma ValueStep(r: Radix, src: string, start: nat, p: nat)
    requires start <= p < |src|
    ensures Value(r, src[start..p + 1]) == Value(r, src[start..p]) * Base(r) + Digit(r, src[p])
  {
    assert src[start..p + 1][..p - start] == src[start..p];
  }

  lemma NaturalTimes(v: int, b: nat)
    requires v >= 0
    ensures v * b >= 0
  {
  }

  lemma {:induction false} ValueIsNatural(radix: Radix, src: string, p: nat, q: nat)
    requires p <= q <= |src| && forall i :: p <= i < q ==> Digit(radix, src[i]) >= 0
    ensures Value(radix, src[p..q]) >= 0
    decreases q
  {
    if p < q {
      hide Value, Digit, Base;
      ValueIsNatural(radix, src, p, q - 1);
      ValueStep(radix, src, p, q - 1);
      NaturalTimes(Value(radix, src[p..q - 1]), Base(radix));
    }
  }

  /** The end of the digits that start at p. */
  function DigitsEnd(r: Radix, src: string, p: nat): (q: nat)
    requires p <= |src|
    ensures p <= q <= |src| && (forall i :: p <= i < q ==> Digit(r, src[i]) >= 0)
    ensures q < |src| ==> Digit(r, src[q]) < 0
    decreases |src| - p
  {
    if p < |src| && Digit(r, src[p]) >= 0 then DigitsEnd(r, src, p + 1) else p
  }

  /** A sign leaves the cursor behind it even when no digit follows. */
  function RunNumeral(radix: Radix, s: St): (r: Res)
    requires Ok(s)
    ensures Kept(s, r, true, true)
    ensures !r.Fault? ==> r.st == s.(cur := r.st.cur, number := r.st.number)
  {
    var p := if radix == Decimal then Skip(s, 'n').cur else s.cur;
    var q := DigitsEnd(radix, s.src, p);
    if q == p then NoMatch(s.(cur := p))
    else
      var v := Value(radix, s.src[p..q]);
      Match(s.(cur := q, number := if p > s.cur then -v else v), Text(s.src[s.cur..q]))
  }

  lemma NumberUnfolds(s: St)
    requires Ok(s)
    ensures var p := Skip(s, 'n').cur;
            var q := DigitsEnd(Decimal, s.src, p);
            var v := Value(Decimal, s.src[p..q]);
            RunNumeral(Decimal, s) ==
              if q == p then NoMatch(s.(cur := p))
              else Match(s.(cur := q, number := if p > s.cur then -v else v), Text(s.src[s.cur..q]))
  {
    hide Skip, DigitsEnd, Value;
  }

  const ANONYMOUS := "_GLOBAL__N_"

  function IdentifierText(w: string): string {
    if |w| > |ANONYMOUS| && ANONYMOUS <= w then "(anonymous namespace)" else w
  }

  function RunIdentifier(s: St): (r: Res)
    requires Ok(s) && s.number >= -1
    ensures Kept(s, r, false, true)
  {
    if s.number == -1 || |s.src| - s.cur < s.number then NoMatch(s)
    else
      var w := s.src[s.cur..s.cur + s.number];
      Match(Print(s, IdentifierText(w)).(cur := s.cur + s.number, number := -1), Text(w))
  }

  function RunSizedName(s: St): (r: Res)
    requires Ok(s)
    ensures Kept(s, r, true, true)
  {
    match RunNumeral(Decimal, s)
    case Match(s1, t1) =>
      if s1.number < -1 || s1.number > INT_MAX then Fault
      else (match RunIdentifier(s1)
            case Match(s2, t2) => Match(s2, Pair(t1, t2))
            case r => r)
    case r => r
  }

  function RunCVQualifiers(s: St): (r: Res)
    requires Ok(s)
    ensures Kept(s, r, true, true)
    ensures r.NoMatch? ==> r.st == s
  {
    var t := Skip(Skip(Skip(s, 'r'), 'V'), 'K');
    if t.cur > s.cur then Match(t, Text(s.src[s.cur..t.cur])) else NoMatch(s)
  }

  /** No entry of the tables is longer. */
  type ShortText = w: string | |w| <= 18

  /** An abbreviation of one or two letters and what it stands for. */
  datatype Abbreviation = Abbreviation(a: char, b: char, long: ShortText)

  const OPERATORS: seq<Abbreviation> := [
    Abbreviation('n', 'w', "new"), Abbreviation('n', 'a', "new[]"), Abbreviation('d', 'l', "delete"),
    Abbreviation('d', 'a', "delete[]"), Abbreviation('p', 's', "+"), Abbreviation('n', 'g', "-"),
    Abbreviation('a', 'd', "&"), Abbreviation('d', 'e', "*"), Abbreviation('c', 'o', "~"),
    Abbreviation('p', 'l', "+"), Abbreviation('m', 'i', "-"), Abbreviation('m', 'l', "*"),
    Abbreviation('d', 'v', "/"), Abbreviation('r', 'm', "%"), Abbreviation('a', 'n', "&"),
    Abbreviation('o', 'r', "|"), Abbreviation('e', 'o', "^"), Abbreviation('a', 'S', "="),
    Abbreviation('p', 'L', "+="), Abbreviation('m', 'I', "-="), Abbreviation('m', 'L', "*="),
    Abbreviation('d', 'V', "/="), Abbreviation('r', 'M', "%="), Abbreviation('a', 'N', "&="),
    Abbreviation('o', 'R', "|="), Abbreviation('e', 'O', "^="), Abbreviation('l', 's', "<<"),
    Abbreviation('r', 's', ">>"), Abbreviation('l', 'S', "<<="), Abbreviation('r', 'S', ">>="),
    Abbreviation('e', 'q', "=="), Abbreviation('n', 'e', "!="), Abbreviation('l', 't', "<"),
    Abbreviation('g', 't', ">"), Abbreviation('l', 'e', "<="), Abbreviation('g', 'e', ">="),
    Abbreviation('n', 't', "!"), Abbreviation('a', 'a', "&&"), Abbreviation('o', 'o', "||"),
    Abbreviation('p', 'p', "++"), Abbreviation('m', 'm', "--"), Abbreviation('c', 'm', ","),
    Abbreviation('p', 'm', "->*"), Abbreviation('p', 't', "->"), Abbreviation('c', 'l', "()"),
    Abbreviation('i', 'x', "[]"), Abbreviation('q', 'u', "?"), Abbreviation('s', 't', "sizeof"),
    Abbreviation('s', 'z', "sizeof")]

  const BUILTINS: seq<Abbreviation> := [
    Abbreviation('v', '\0', "void"), Abbreviation('w', '\0', "wchar_t"), Abbreviation('b', '\0', "bool"),
    Abbreviation('c', '\0', "char"), Abbreviation('a', '\0', "signed char"), Abbreviation('h', '\0', "unsigned char"),
    Abbreviation('s', '\0', "short"), Abbreviation('t', '\0', "unsigned short"), Abbreviation('i', '\0', "int"),
    Abbreviation('j', '\0', "unsigned int"), Abbreviation('l', '\0', "long"),
    Abbreviation('m', '\0', "unsigned long"), Abbreviation('x', '\0', "long long"),
    Abbreviation('y', '\0', "unsigned long long"), Abbreviation('n', '\0', "__int128"),
    Abbreviation('o', '\0', "unsigned __int128"), Abbreviation('f', '\0', "float"), Abbreviation('d', '\0', "double"),
    Abbreviation('e', '\0', "long double"), Abbreviation('g', '\0', "__float128"),
    Abbreviation('z', '\0', "ellipsis")]

  /** Abbreviations of names from the standard library. */
  const SUBSTITUTIONS: seq<Abbreviation> := [
    Abbreviation('S', 't', ""), Abbreviation('S', 'a', "allocator"), Abbreviation('S', 'b', "basic_string"),
    Abbreviation('S', 's', "string"), Abbreviation('S', 'i', "istream"), Abbreviation('S', 'o', "ostream"),
    Abbreviation('S', 'd', "iostream")]

  /** What a lookup compares: both letters, the first, or the second. */
  datatype Key = Both(c: char, d: char) | First(c: char) | Second(c: char)

  predicate Hits(e: Abbreviation, key: Key) {
    match key
    case Both(c, d) => e.a == c && e.b == d
    case First(c) => e.a == c
    case Second(c) => e.b == c
  }

  /** The first entry from k on that the key hits, or the length of the table. */
  function Find(table: seq<Abbreviation>, k: nat, key: Key): (i: nat)
    requires k <= |table|
    ensures k <= i <= |table|
    decreases |table| - k
  {
    if k == |table| || Hits(table[k], key) then k else Find(table, k + 1, key)
  }

  /** Success over the next k characters. */
  function Took(s: St, k: nat): Res
    requires Ok(s) && s.cur + k <= |s.src|
  {
    Match(s.(cur := s.cur + k), Text(s.src[s.cur..s.cur + k]))
  }

  function OperatorText(w: string, s: St): (t: St)
    requires Ok(s)
    ensures Printed(s, t)
  {
    var s1 := Print(s, "operator");
    Print(if w != "" && IsLower(w[0]) then Print(s1, " ") else s1, w)
  }

  function RunOperatorTable(s: St): (r: Res)
    requires Ok(s)
    ensures Kept(s, r, true, true)
    ensures r.NoMatch? ==> r.st == s
  {
    if |s.src| - s.cur < 2 || !IsLower(s.src[s.cur]) || !IsAlpha(s.src[s.cur + 1]) then NoMatch(s)
    else
      var i := Find(OPERATORS, 0, Both(s.src[s.cur], s.src[s.cur + 1]));
      if i == |OPERATORS| then NoMatch(s) else Took(OperatorText(OPERATORS[i].long, s), 2)
  }

  function RunBuiltinTable(s: St): (r: Res)
    requires Ok(s)
    ensures Kept(s, r, true, true)
    ensures r.NoMatch? ==> r.st == s
  {
    if s.cur == |s.src| then NoMatch(s)
    else
      var i := Find(BUILTINS, 0, First(s.src[s.cur]));
      if i == |BUILTINS| then NoMatch(s) else Took(Print(s, BUILTINS[i].long), 1)
  }

  function SubstitutionText(w: string, s: St): (t: St)
    requires Ok(s)
    ensures Printed(s, t)
  {
    var s1 := Print(s, "std");
    if w != "" then Print(Print(s1, "::"), w) else s1
  }

  function RunSubstitutionTable(s: St): (r: Res)
    requires Ok(s)
    ensures Kept(s, r, true, true)
    ensures r.NoMatch? ==> r.st == s
  {
    if s.cur == |s.src| then NoMatch(s)
    else
      var i := Find(SUBSTITUTIONS, 0, Second(s.src[s.cur]));
      if i == |SUBSTITUTIONS| then NoMatch(s) else Took(SubstitutionText(SUBSTITUTIONS[i].long, s), 1)
  }

  function RunSuffix(s: St): (r: Res)
    requires Ok(s)
    ensures Kept(s, r, false, true)
  {
    if Starts(s.src, s.cur, "@")
    then Match(Print(s, s.src[s.cur..]).(cur := |s.src|), Text(s.src[s.cur..]))
    else Match(s, Text(""))
  }

  // ---------- the interpreter ----------

  /** Does a failing n put everything but the buffer back? */
  predicate Restores(n: Nonterminal) { n != MangledName && n != NVOffset }

  predicate RestoringSym(y: Sym) {
    (y.N? && Restores(y.n)) || y.Lit? || y.Class? || y.CVQualifiers? || y.OperatorTable? || y.BuiltinTable?
    || y.SubstitutionTable?
  }

  function RunTerminal(y: Sym, s: St): (r: Res)
    requires Ok(s)
    ensures Kept(s, r, !NullableSym(y), true)
    ensures r.NoMatch? && RestoringSym(y) ==> r.st == s
  {
    match y
    case Lit(w) => RunLit(w, s)
    case Class(cs) => RunClass(cs, s)
    case Numeral(radix) => RunNumeral(radix, s)
    case SizedName => RunSizedName(s)
    case CVQualifiers => RunCVQualifiers(s)
    case OperatorTable => RunOperatorTable(s)
    case BuiltinTable => RunBuiltinTable(s)
    case SubstitutionTable => RunSubstitutionTable(s)
    case Suffix => RunSuffix(s)
    case Emit(w) => Match(Print(s, w), Eps)
    case EmitPrevious => Match(PrintPrevious(s), Eps)
    case _ => NoMatch(s)
  }

  /** Put a tree in front. */
  function Joined(t: Tree, r: Res): Res {
    match r case Match(s, u) => Match(s, Pair(t, u)) case _ => r
  }

  function RunNt(n: Nonterminal, s: St): (r: Res)
    requires Ok(s)
    ensures Kept(s, r, true, true)
    ensures r.NoMatch? && Restores(n) ==> r.st == Restore(s, r.st)
    decreases |s.src| - s.cur, Level(n), 1, 0
  {
    NoLeftRecursion(n);
    match RunAlts(n, Rule(n), s)
    case NoMatch(s1) => NoMatch(if Restores(n) then Restore(s, s1) else s1)
    case r => r
  }

  function RunSym(y: Sym, s: St): (r: Res)
    requires Ok(s)
    ensures Kept(s, r, !NullableSym(y), true)
    ensures r.NoMatch? && RestoringSym(y) ==> r.st == Restore(s, r.st)
    decreases |s.src| - s.cur, RankSym(y), SizeSym(y), 1
  {
    hide RunTerminal, OkOut;
    match y
    case N(n) => RunNt(n, s)
    case Plus(m) => RunPlus(m, s)
    case Opt(z) => RunOpt(z, s)
    case Quiet(p) => RunQuiet(p, s)
    case Nested(z) => LevelBack(s, RunSym(z, s.(nest := 0)))
    case Prefix => LevelBack(s, RunPrefix(false, s.(nest := 0)))
    case _ => RunTerminal(y, s)
  }

  function RunOpt(y: Sym, s: St): (r: Res)
    requires Ok(s)
    ensures Kept(s, r, false, true)
    decreases |s.src| - s.cur, RankSym(y), SizeSym(y) + 1, 0
  {
    match RunSym(y, s)
    case NoMatch(s1) => Match(Restore(s, s1), Eps)
    case r => r
  }

  /** A match with the nest level of s. */
  function LevelBack(s: St, r: Res): Res {
    match r case Match(s1, t) => Match(s1.(nest := s.nest), t) case _ => r
  }

  function RunQuiet(p: Pat, s: St): (r: Res)
    requires Ok(s)
    ensures Kept(s, r, !NullablePat(p), true)
    ensures !r.Fault? ==> r.st.out == s.out
    decreases |s.src| - s.cur, RankPat(p), SizePat(p), 1
  {
    match RunPat(p, s.(append := false))
    case Match(s1, t1) => Match(s1.(append := s.append), t1)
    case r => r
  }

  function RunPlus(n: Nonterminal, s: St): (r: Res)
    requires Ok(s)
    ensures Kept(s, r, true, true)
    decreases |s.src| - s.cur, Level(n), 3, 0
  {
    match RunNt(n, s)
    case Match(s1, t1) => Joined(t1, RunStar(n, s1))
    case r => r
  }

  function RunStar(n: Nonterminal, s: St): (r: Res)
    requires Ok(s)
    ensures Kept(s, r, false, true)
    decreases |s.src| - s.cur, Level(n), 2, 0
  {
    match RunNt(n, s)
    case Match(s1, t1) => Joined(t1, RunStar(n, s1))
    case NoMatch(s1) => Match(Restore(s, s1), Eps)
    case r => r
  }

  /** Items as long as there are any, then template arguments if an item came before them, and so on. */
  function RunPrefix(has: bool, s: St): (r: Res)
    requires Ok(s)
    ensures Kept(s, r, false, false)
    decreases |s.src| - s.cur, RankSym(Prefix), 2, 0
  {
    match RunNt(PrefixItem, Separate(s))
    case Match(s1, t1) => Joined(t1, RunPrefix(true, Deeper(s1)))
    case NoMatch(s1) => if has then RunPrefixArgs(CancelSeparator(s1)) else Match(CancelSeparator(s1), Eps)
    case r => r
  }

  /** The prefix where no further item follows. */
  function RunPrefixArgs(s: St): (r: Res)
    requires Ok(s)
    ensures Kept(s, r, false, false)
    decreases |s.src| - s.cur, RankSym(Prefix), 1, 0
  {
    match RunNt(TemplateArgs, s)
    case Match(s1, t1) => Joined(t1, RunPrefix(false, s1))
    case NoMatch(s1) => Match(s1, Eps)
    case r => r
  }

  function RunPat(p: Pat, s: St): (r: Res)
    requires Ok(s)
    ensures Kept(s, r, !NullablePat(p), true)
    decreases |s.src| - s.cur, RankPat(p), SizePat(p), 0
  {
    if p.Done? then Match(s, Eps)
    else
      match RunSym(p.head, s)
      case Match(s1, t1) => Joined(t1, RunPat(p.tail, s1))
      case r => r
  }

  /** The first of the alternatives that matches; each starts from the state s. */
  function RunAlts(n: Nonterminal, alts: Alts, s: St): (r: Res)
    requires Ok(s) && Descends(alts, Level(n))
    ensures Kept(s, r, true, true)
    decreases |s.src| - s.cur, Level(n), 0, alts
  {
    match alts
    case Fail => NoMatch(s)
    case Or(p, rest) =>
      match RunPat(p, s)
      case Match(s1, t1) => Match(s1, Node(n, p, t1))
      case NoMatch(s1) => if rest.Fail? then NoMatch(s1) else RunAlts(n, rest, Restore(s, s1))
      case Fault => Fault
  }

  // ---------- one step of the interpreter at a time ----------

  lemma NtUnfolds(n: Nonterminal, s: St)
    requires Ok(s)
    ensures Descends(Rule(n), Level(n))
    ensures var r := RunAlts(n, Rule(n), s);
            RunNt(n, s) == if r.NoMatch? then NoMatch(if Restores(n) then Restore(s, r.st) else r.st) else r
  {
    NoLeftRecursion(n);
  }

  lemma AltsUnfold(n: Nonterminal, alts: Alts, s: St)
    requires Ok(s) && Descends(alts, Level(n)) && alts.Or?
    ensures var r := RunPat(alts.first, s);
            RunAlts(n, alts, s)
            == if r.Match? then Match(r.st, Node(n, alts.first, r.tree))
               else if r.Fault? || alts.rest.Fail? then r
               else RunAlts(n, alts.rest, Restore(s, r.st))
  {
  }

  lemma PatUnfolds(p: Pat, s: St)
    requires Ok(s) && p.Then?
    ensures var r := RunSym(p.head, s);
            RunPat(p, s) == if r.Match? then Joined(r.tree, RunPat(p.tail, r.st)) else r
  {
  }

  lemma PlusUnfolds(n: Nonterminal, s: St)
    requires Ok(s)
    ensures var r := RunNt(n, s);
            RunPlus(n, s) == if r.Match? then Joined(r.tree, RunStar(n, r.st)) else r
  {
  }

  lemma StarUnfolds(n: Nonterminal, s: St)
    requires Ok(s)
    ensures var r := RunNt(n, s);
            RunStar(n, s)
            == if r.Match? then Joined(r.tree, RunStar(n, r.st))
               else if r.NoMatch? then Match(Restore(s, r.st), Eps)
               else Fault
  {
  }

  lemma NestedUnfolds(y: Sym, s: St)
    requires Ok(s)
    ensures RunSym(Nested(y), s) == LevelBack(s, RunSym(y, s.(nest := 0)))
  {
  }

  lemma PrefixUnfolds(has: bool, s: St)
    requires Ok(s)
    ensures var r := RunNt(PrefixItem, Separate(s));
            RunPrefix(has, s)
            == if r.Match? then Joined(r.tree, RunPrefix(true, Deeper(r.st)))
               else if r.Fault? then r
               else if has then RunPrefixArgs(CancelSeparator(r.st)) else Match(CancelSeparator(r.st), Eps)
    ensures var r := RunNt(PrefixItem, Separate(s)); r.NoMatch? ==> r.st == Restore(Separate(s), r.st)
    ensures var r := RunNt(PrefixItem, Separate(s)); r.Match? ==> r.st.nest == s.nest && s.cur < r.st.cur
  {
  }

  lemma PrefixArgsUnfold(s: St)
    requires Ok(s)
    ensures var r := RunNt(TemplateArgs, s);
            RunPrefixArgs(s)
            == if r.Match? then Joined(r.tree, RunPrefix(false, r.st))
               else if r.NoMatch? then Match(r.st, Eps)
               else r
    ensures var r := RunNt(TemplateArgs, s); r.NoMatch? ==> r.st == Restore(s, r.st)
    ensures var r := RunNt(TemplateArgs, s); r.Match? ==> r.st.nest == s.nest && s.cur < r.st.cur
  {
  }

  lemma TerminalUnfolds(y: Sym, s: St)
    requires Ok(s) && !y.N? && !y.Plus? && !y.Opt? && !y.Quiet? && !y.Nested? && !y.Prefix?
    ensures RunSym(y, s) == RunTerminal(y, s)
  {
  }

  lemma DoneUnfolds(s: St)
    requires Ok(s)
    ensures RunPat(Done, s) == Match(s, Eps)
  {
  }

  /** A nonterminal with one alternative. */
  lemma SingleUnfolds(n: Nonterminal, p: Pat, s: St)
    requires Ok(s) && Rule(n) == Or1(p)
    ensures var r, q := RunNt(n, s), RunPat(p, s);
            r.Match? == q.Match? && r.Fault? == q.Fault? && (r.Match? ==> r.st == q.st)
            && (r.NoMatch? ==> r.st == if Restores(n) then Restore(s, q.st) else q.st)
  {
    hide RunNt, RunAlts, RunPat, Rule;
    NtUnfolds(n, s);
    AltsUnfold(n, Rule(n), s);
  }

  /** The same where the alternative is one symbol. */
  lemma OneUnfolds(n: Nonterminal, y: Sym, s: St)
    requires Ok(s) && Rule(n) == Or1(One(y))
    ensures var r, q := RunNt(n, s), RunSym(y, s);
            r.Match? == q.Match? && r.Fault? == q.Fault? && (r.Match? ==> r.st == q.st)
            && (r.NoMatch? ==> r.st == if Restores(n) then Restore(s, q.st) else q.st)
  {
    hide RunNt, RunPat, RunSym, Rule;
    SingleUnfolds(n, One(y), s);
    PatUnfolds(One(y), s);
    if RunSym(y, s).Match? { DoneUnfolds(RunSym(y, s).st); }
  }

  /** A fault in the first alternative is a fault of the nonterminal. */
  lemma FirstFaults(n: Nonterminal, s: St)
    requires Ok(s) && Rule(n).Or? && RunPat(Rule(n).first, s).Fault?
    ensures RunNt(n, s).Fault?
  {
    hide RunNt, RunAlts, RunPat, Rule;
    NtUnfolds(n, s);
    AltsUnfold(n, Rule(n), s);
  }

  lemma HeadFaults(p: Pat, s: St)
    requires Ok(s) && p.Then? && RunSym(p.head, s).Fault?
    ensures RunPat(p, s).Fault?
  {
    hide RunPat, RunSym;
    PatUnfolds(p, s);
  }

  /** If the first alternative fails and gives the state back, the others decide. */
  lemma NextAlternative(n: Nonterminal, alts: Alts, s: St)
    requires Ok(s) && Descends(alts, Level(n)) && alts.Or? && alts.rest.Or?
    requires RunPat(alts.first, s).NoMatch? && RunPat(alts.first, s).st.out.buf == s.out.buf
    ensures RunAlts(n, alts, s) == RunAlts(n, alts.rest, s)
  {
    hide RunAlts, RunPat;
    AltsUnfold(n, alts, s);
    assert Restore(s, RunPat(alts.first, s).st) == s;
  }

  lemma OneFails(y: Sym, s: St)
    requires Ok(s) && RunSym(y, s).NoMatch?
    ensures RunPat(One(y), s) == RunSym(y, s)
  {
    hide RunPat, RunSym;
    PatUnfolds(One(y), s);
  }

  lemma OneMatches(y: Sym, s: St)
    requires Ok(s) && RunSym(y, s).Match?
    ensures RunPat(One(y), s).Match? && RunPat(One(y), s).st == RunSym(y, s).st
  {
    hide RunPat, RunSym;
    PatUnfolds(One(y), s);
    DoneUnfolds(RunSym(y, s).st);
  }

  /** The first alternative that matches decides. */
  lemma AlternativeMatches(n: Nonterminal, alts: Alts, s: St)
    requires Ok(s) && Descends(alts, Level(n)) && alts.Or? && RunPat(alts.first, s).Match?
    ensures RunAlts(n, alts, s).Match? && RunAlts(n, alts, s).st == RunPat(alts.first, s).st
  {
    hide RunAlts, RunPat;
    AltsUnfold(n, alts, s);
  }

  lemma NtSym(n: Nonterminal, s: St)
    requires Ok(s)
    ensures RunSym(N(n), s) == RunNt(n, s)
  {
  }

  /** The state in which a run starts. */
  function Initial(src: string, buf: seq<char>): St {
    St(src, 0, Out(buf, 0, -1, -1, false), -1, -1, true)
  }
}
