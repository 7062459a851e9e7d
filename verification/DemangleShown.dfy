/** What a derivation of a mangled name says, and that this is what the name is shown as. */
module DemangleShown {
  import opened DemangleSpec
  import opened DemangleOutput
  import opened DemangleDerivation
  import opened DemangleNames

  // ---------- piece by piece ----------

  function SaidSub(s: Sub, c: Ctx): Ctx {
    if s.Seen? then Said(c, "?") else SaidSubstitution(c, Entry(SUBSTITUTIONS, Second(s.c)))
  }

  function SaidTy(t: Ty, c: Ctx): Ctx {
    match t
    case Builtin(ch) => Said(c, Entry(BUILTINS, First(ch)))
    case Derived(_, of) => SaidTy(of, c)
    case Qualified(_, _, _, of) => SaidTy(of, c)
    case ClassType(name) => SaidEntity(name, c)
    case Short(sub) => SaidSub(sub, c)
    case Param(_) => Said(c, "?")
    case ParamOf(_, _) => Said(Said(c, "?"), "<>")
    case Signature(_, _) => Said(c, "()")
    case Array(_, of) => SaidTy(of, c)
    case MemberPointer(owner, of) => SaidTy(of, SaidTy(owner, c))
    case Vendor(w, of) => SaidTy(of, Said(c, IdentifierText(w)))
    case VendorType(w) => Said(c, IdentifierText(w))
    case _ => c
  }

  function SaidPart(p: Part, c: Ctx): Ctx {
    match p
    case Identifier(w) => Said(c, IdentifierText(w))
    case Internal(w) => Said(c, IdentifierText(w))
    case Operator(a, b) => SaidOperator(c, Entry(OPERATORS, Both(a, b)))
    case Cast(target) => SaidTy(target, Said(c, "operator "))
    case Constructor(_) => Said(c, c.previous)
    case Destructor(_) => var d := Said(c, "~"); Said(d, d.previous)
    case Shortened(sub) => SaidSub(sub, c)
    case Parameter(_) => Said(c, "?")
  }

  function SaidArgs(args: Tys, c: Ctx): Ctx { if args.NoTypes? then c else Said(c, "<>") }

  function SaidPath(path: Path, first: bool, c: Ctx): Ctx {
    var d := SaidArgs(path.args, SaidPart(path.part, if first then c else Said(c, "::")));
    if path.Chain? then SaidPath(path.rest, false, d) else d
  }

  function SaidEntity(e: Entity, c: Ctx): Ctx {
    match e
    case Plain(std, part, args) => SaidArgs(args, SaidPart(part, if std then Said(c, "std::") else c))
    case Instance(sub, _) => Said(SaidSub(sub, c), "<>")
    case Scoped(_, _, _, path) => SaidPath(path, true, c)
    case Local(enc, name) => SaidEntity(name, Said(SaidEncoded(enc, c), "::"))
  }

  function SaidEncoded(e: Encoded, c: Ctx): Ctx {
    match e
    case Function(name, _) => Said(SaidEntity(name, c), "()")
    case Data(name) => SaidEntity(name, c)
    case OfType(_, of) => SaidTy(of, c)
    case Guard(name) => SaidEntity(name, c)
    case Thunk(_, target) => SaidEncoded(target, c)
    case Covariant(_, _, target) => SaidEncoded(target, c)
    case Construction(whole, _, _) => SaidTy(whole, c)
  }

  // ---------- is what the name is shown as ----------

  /** Only brackets need care. */
  lemma PlainSaid(c: Ctx, w: string)
    requires w != "" ==> w[0] != '<'
    ensures Said(c, w).text == c.text + w
  {
    if w == "" { assert c.text + "" == c.text; }
  }

  lemma BuiltinEntry(i: nat)
    requires i < |BUILTINS|
    ensures BUILTINS[i].long != "" && BUILTINS[i].long[0] != '<'
  {
  }

  lemma BuiltinText(ch: char)
    requires InTable(BUILTINS, First(ch))
    ensures var w := Entry(BUILTINS, First(ch)); w != "" && w[0] != '<'
  {
    BuiltinEntry(Find(BUILTINS, 0, First(ch)));
    hide Find, BUILTINS;
  }

  lemma SubstitutionText(ch: char)
    requires InTable(SUBSTITUTIONS, Second(ch))
    ensures var w := Entry(SUBSTITUTIONS, Second(ch)); (w == "" <==> ch == 't') && (w != "" ==> w[0] != '<')
  {
    FoundInTable(SUBSTITUTIONS, 0, Second(ch));
    hide Find;
  }

  lemma SubShown(s: Sub, c: Ctx)
    requires GoodSub(s)
    ensures SaidSub(s, c).text == c.text + SubText(s)
  {
    hide Find, Entry, Said;
    if s.Seen? {
      PlainSaid(c, "?");
    } else {
      var w := Entry(SUBSTITUTIONS, Second(s.c));
      SubstitutionText(s.c);
      PlainSaid(c, "std");
      PlainSaid(Said(c, "std"), "::");
      PlainSaid(Said(Said(c, "std"), "::"), w);
      assert c.text + "std" + "::" + w == c.text + ("std::" + w);
    }
  }

  lemma {:induction false} TyShown(t: Ty, c: Ctx)
    requires GoodTy(t)
    ensures SaidTy(t, c).text == c.text + TyText(t)
    decreases t
  {
    hide Find, Entry, Said, SaidSub, SubText, GoodSub, GoodTys, IdentifierText, NameText, IsName;
    match t
    case Builtin(ch) =>
      BuiltinText(ch);
      PlainSaid(c, Entry(BUILTINS, First(ch)));
    case Derived(_, of) => TyShown(of, c);
    case Qualified(_, _, _, of) => TyShown(of, c);
    case ClassType(name) => EntityShown(name, c);
    case Short(sub) => SubShown(sub, c);
    case Param(_) => PlainSaid(c, "?");
    case ParamOf(_, _) =>
      PlainSaid(c, "?");
      BracketsSaid(Said(c, "?"), "?");
    case Signature(_, _) => PlainSaid(c, "()");
    case Array(_, of) => TyShown(of, c);
    case MemberPointer(owner, of) =>
      TyShown(owner, c);
      TyShown(of, SaidTy(owner, c));
      assert c.text + TyText(owner) + TyText(of) == c.text + (TyText(owner) + TyText(of));
    case Vendor(w, of) =>
      NameSaid(w, c);
      TyShown(of, Said(c, IdentifierText(w)));
      assert c.text + NameText(w) + TyText(of) == c.text + (NameText(w) + TyText(of));
    case VendorType(w) => NameSaid(w, c);
    case _ =>
  }

  /** Behind w. */
  lemma BracketsSaid(c: Ctx, w: string)
    requires w != "" && |w| <= |c.text| && c.text[|c.text| - |w|..] == w
    ensures Said(c, "<>").text == c.text + (if w[|w| - 1] == '<' then " <>" else "<>")
    ensures Said(c, "<>").previous == c.previous
  {
    assert c.text[|c.text| - |w|..][|w| - 1] == c.text[|c.text| - 1];
    assert " " + "<>" == " <>" && "" + "<>" == "<>";
  }

  lemma ArgsShown(args: Tys, c: Ctx, w: string, b: Ctx)
    requires w != "" && b.text == c.text + w
    ensures SaidArgs(args, b).text == c.text + WithArgs(w, args) && SaidArgs(args, b).previous == b.previous
  {
    hide Said;
    if args.Types? {
      BracketsSaid(b, w);
      var x := if w[|w| - 1] == '<' then " <>" else "<>";
      assert c.text + w + x == c.text + (w + x);
    }
  }

  lemma OperatorShown(c: Ctx, w: string)
    ensures SaidOperator(c, w).text == c.text + SymbolText(w)
  {
    hide Said;
    var d := Said(c, "operator");
    PlainSaid(c, "operator");
    if w != "" && 'a' <= w[0] <= 'z' {
      PlainSaid(d, " ");
      PlainSaid(Said(d, " "), w);
      assert c.text + "operator" + " " + w == c.text + ("operator" + " " + w);
    } else {
      SymbolSaid(d, w);
      assert "operator" + "" + w == "operator" + w;
      assert c.text + "operator" + w == c.text + ("operator" + w);
    }
  }

  lemma SymbolSaid(c: Ctx, w: string)
    requires c.text != "" && c.text[|c.text| - 1] != '<'
    ensures Said(c, w).text == c.text + w
  {
    assert c.text + "" == c.text;
  }

  lemma NameSaid(w: string, c: Ctx)
    requires IsName(w)
    ensures NameText(w) != "" && Said(c, IdentifierText(w)).text == c.text + NameText(w)
    ensures !IsAnonymous(w) ==> Said(c, IdentifierText(w)).previous == w
  {
    assert IdentifierText(w) == NameText(w);
    PlainSaid(c, NameText(w));
  }

  /** What a component says; a name is then the one that was printed last. */
  lemma PartShown(p: Part, before: Part, c: Ctx)
    requires GoodPart(p) && GoodPart(before)
    requires IsSpecial(p) ==> ClassName(before) != "" && c.previous == ClassName(before)
    ensures PartText(p, before) != ""
    ensures SaidPart(p, c).text == c.text + PartText(p, before)
    ensures ClassName(p) != "" ==> SaidPart(p, c).previous == ClassName(p)
  {
    hide Find, Entry, Said, SaidSub, SubText, SaidOperator, GoodTy, IdentifierText, IsAnonymous, NameText;
    match p
    case Identifier(w) => NameSaid(w, c);
    case Internal(w) => NameSaid(w, c);
    case Operator(a, b) => OperatorShown(c, Entry(OPERATORS, Both(a, b)));
    case Cast(target) =>
      PlainSaid(c, "operator ");
      TyShown(target, Said(c, "operator "));
      assert c.text + "operator " + TyText(target) == c.text + ("operator " + TyText(target));
    case Constructor(_) =>
      ClassNameIsName(before);
      PlainSaid(c, ClassName(before));
    case Destructor(_) =>
      PlainSaid(c, "~");
      TildePrevious(c);
      ClassNameIsName(before);
      PlainSaid(Said(c, "~"), ClassName(before));
      assert c.text + "~" + ClassName(before) == c.text + ("~" + ClassName(before));
    case Shortened(sub) =>
      SubShown(sub, c);
      SubNotEmpty(sub);
      SubPrevious(sub, c);
    case Parameter(_) => PlainSaid(c, "?");
  }

  lemma ClassNameIsName(p: Part)
    requires GoodPart(p) && ClassName(p) != ""
    ensures ClassName(p)[0] != '<'
  {
    hide Find, Entry, IsAnonymous;
    if p.Shortened? { SubstitutionText(p.sub.c); }
  }

  lemma SubstitutionEntry(i: nat)
    requires i < |SUBSTITUTIONS| && SUBSTITUTIONS[i].long != ""
    ensures IsLower(SUBSTITUTIONS[i].long[0])
  {
  }

  lemma SubPrevious(s: Sub, c: Ctx)
    requires GoodSub(s)
    ensures ClassName(Shortened(s)) != "" ==> SaidSub(s, c).previous == ClassName(Shortened(s))
  {
    if ClassName(Shortened(s)) != "" { SubstitutionEntry(Find(SUBSTITUTIONS, 0, Second(s.c))); }
    hide Find, SUBSTITUTIONS;
  }

  lemma TildePrevious(c: Ctx)
    ensures Said(c, "~").previous == c.previous && Said(c, "::").previous == c.previous
  {
  }

  lemma SubNotEmpty(s: Sub)
    ensures SubText(s) != ""
  {
    hide Entry;
  }

  lemma {:induction false} PathShown(path: Path, before: Part, first: bool, c: Ctx)
    requires GoodPath(path, before) && GoodPart(before) && (ClassName(before) != "" ==> c.previous == ClassName(before))
    ensures SaidPath(path, first, c).text == c.text + If(!first, "::") + PathText(path, before)
    decreases path
  {
    hide Said, SaidPart, PartText, GoodPart, GoodTys, IsAnonymous, SaidArgs, WithArgs;
    var c0 := if first then c else Said(c, "::");
    PlainSaid(c, "::");
    TildePrevious(c);
    assert c0.text == c.text + If(!first, "::");
    PartShown(path.part, before, c0);
    var w, b := PartText(path.part, before), SaidPart(path.part, c0);
    ArgsShown(path.args, c0, w, b);
    var d := SaidArgs(path.args, b);
    if path.Chain? {
      PathShown(path.rest, path.part, false, d);
      assert d.text + "::" + PathText(path.rest, path.part)
          == c0.text + (WithArgs(w, path.args) + ("::" + PathText(path.rest, path.part)));
    } else {
      assert WithArgs(w, path.args) + "" == WithArgs(w, path.args);
    }
  }

  lemma NothingIsGood()
    ensures GoodPart(NOTHING) && ClassName(NOTHING) == ""
  {
  }

  lemma {:induction false} EntityShown(e: Entity, c: Ctx)
    requires GoodEntity(e)
    ensures SaidEntity(e, c).text == c.text + EntityText(e)
    decreases e
  {
    hide Find, Entry, Said, SaidPart, PartText, GoodPart, GoodPath, GoodTys, SaidSub, SubText, SaidArgs, WithArgs;
    hide GoodSub;
    match e
    case Plain(std, part, args) =>
      var b := if std then Said(c, "std::") else c;
      PlainSaid(c, "std::");
      NothingIsGood();
      assert b.text == c.text + If(std, "std::");
      PartShown(part, NOTHING, b);
      ArgsShown(args, b, PartText(part, NOTHING), SaidPart(part, b));
      var w := WithArgs(PartText(part, NOTHING), args);
      assert c.text + If(std, "std::") + w == c.text + (If(std, "std::") + w);
    case Instance(sub, _) =>
      SubShown(sub, c);
      SubNotEmpty(sub);
      SubEnds(sub);
      BracketsSaid(SaidSub(sub, c), SubText(sub));
      assert c.text + SubText(sub) + "<>" == c.text + (SubText(sub) + "<>");
    case Scoped(_, _, _, path) =>
      NothingIsGood();
      PathShown(path, NOTHING, true, c);
      assert c.text + "" == c.text;
    case Local(enc, name) =>
      EncodedShown(enc, c);
      PlainSaid(SaidEncoded(enc, c), "::");
      EntityShown(name, Said(SaidEncoded(enc, c), "::"));
      assert c.text + EncodedText(enc) + "::" + EntityText(name)
          == c.text + (EncodedText(enc) + "::" + EntityText(name));
  }

  lemma SubEnds(s: Sub)
    requires GoodSub(s)
    ensures var w := SubText(s); w != "" && w[|w| - 1] != '<'
  {
    if s.Standard? { FoundInTable(SUBSTITUTIONS, 0, Second(s.c)); }
    hide Find;
  }

  lemma {:induction false} EncodedShown(e: Encoded, c: Ctx)
    requires GoodEncoded(e)
    ensures SaidEncoded(e, c).text == c.text + EncodedText(e)
    decreases e
  {
    hide Said, GoodEntity, GoodTys, GoodTy, SaidTy, TyText, SaidEntity, EntityText;
    match e
    case Function(name, _) =>
      EntityShown(name, c);
      PlainSaid(SaidEntity(name, c), "()");
      assert c.text + EntityText(name) + "()" == c.text + (EntityText(name) + "()");
    case Data(name) => EntityShown(name, c);
    case OfType(_, of) => TyShown(of, c);
    case Guard(name) => EntityShown(name, c);
    case Thunk(_, target) => EncodedShown(target, c);
    case Covariant(_, _, target) => EncodedShown(target, c);
    case Construction(whole, _, _) => TyShown(whole, c);
  }
}
