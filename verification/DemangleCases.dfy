/** Constructors and destructors, and the first cases of demangle_unittest.txt, as instances of what is proved of all
    names. */
module DemangleCases {
  import opened DemangleNames
  import opened DemangleDerivation
  import opened DemangleSpec
  import opened Demangle

  const VOID := Types(Builtin('v'), NoTypes)

  /** A constructor or destructor of the class w, without parameters. */
  function InClass(w: string, p: Part): Path { Chain(Identifier(w), NoTypes, Single(p, NoTypes)) }

  function Special(w: string, p: Part): Encoded { Function(Scoped(false, false, false, InClass(w, p)), VOID) }

  lemma VoidMangled()
    ensures MangledTys(VOID) == "v"
  {
  }

  lemma SingleMangled(p: Part)
    ensures MangledPath(Single(p, NoTypes)) == MangledPart(p)
  {
    hide MangledPart;
  }

  lemma PathMangled(w: string, p: Part)
    ensures MangledPath(InClass(w, p)) == Counted(w) + MangledPart(p)
  {
    SingleMangled(p);
    hide Counted;
    assert MangledPart(Identifier(w)) == Counted(w) && MangledArgs(NoTypes) == "";
    hide MangledPart, MangledArgs;
    assert "" + MangledPart(p) == MangledPart(p);
  }

  lemma SpecialMangled(w: string, p: Part, v: string)
    requires MangledPart(p) == v
    ensures Mangled(Special(w, p), "") == "_ZN" + Digits(|w|, 10) + w + (v + "Ev")
  {
    PathMangled(w, p);
    VoidMangled();
    var x := MangledPath(InClass(w, p));
    assert MangledEntity(Scoped(false, false, false, InClass(w, p)))
        == "N" + (Qualifiers(false, false, false) + (x + "E"));
    hide MangledPath, MangledEntity, MangledTys, MangledPart, InClass, Digits;
    Join(Digits(|w|, 10), w, v);
  }

  lemma Join(n: string, w: string, p: string)
    ensures "_Z" + ("N" + (Qualifiers(false, false, false) + (n + w + p + "E")) + "v" + "")
         == "_ZN" + n + w + (p + "Ev")
  {
  }

  lemma SpecialIsGood(w: string, p: Part)
    requires IsName(w) && !IsAnonymous(w) && GoodPart(p) && IsSpecial(p)
    ensures GoodEncoded(Special(w, p))
  {
    hide Find, IsName, IsAnonymous;
    VoidIsGood();
    SpecialPathIsGood(w, p);
    hide GoodPath, GoodTys, GoodPart;
  }

  lemma VoidIsGood()
    ensures GoodTys(VOID, false)
  {
  }

  lemma SpecialPathIsGood(w: string, p: Part)
    requires IsName(w) && !IsAnonymous(w) && GoodPart(p) && IsSpecial(p)
    ensures GoodPath(InClass(w, p), NOTHING)
  {
    hide Find, IsAnonymous;
    assert ClassName(Identifier(w)) == w;
    assert GoodPath(Single(p, NoTypes), Identifier(w));
  }

  lemma SpecialText(w: string, p: Part, tilde: string)
    requires !IsAnonymous(w) && IsSpecial(p) && tilde == If(p.Destructor?, "~")
    ensures EncodedText(Special(w, p)) + "" == w + ("::" + tilde) + w + "()"
  {
    hide IsAnonymous;
    assert PathText(Single(p, NoTypes), Identifier(w)) == tilde + w;
    assert PathText(InClass(w, p), NOTHING) == w + ("::" + tilde) + w;
  }

  lemma SpecialIsShown(w: string, p: Part, tail: string, link: string)
    requires IsName(w) && !IsAnonymous(w) && GoodPart(p) && IsSpecial(p)
    requires tail == MangledPart(p) + "Ev" && link == "::" + If(p.Destructor?, "~")
    ensures var m := "_ZN" + Digits(|w|, 10) + w + tail; Accepted(m) && Demangled(m) == w + link + w + "()"
  {
    hide Digits, Accepted, Demangled, Special, MangledPart, EncodedText, Mangled, GoodEncoded, IsName, IsAnonymous;
    SpecialMangled(w, p, MangledPart(p));
    SpecialIsGood(w, p);
    SpecialText(w, p, If(p.Destructor?, "~"));
    SymbolsAreShown(Special(w, p), "");
  }

  lemma ConstructorTail()
    ensures MangledPart(Constructor('1')) + "Ev" == "C1Ev" && GoodPart(Constructor('1'))
    ensures MangledPart(Destructor('1')) + "Ev" == "D1Ev" && GoodPart(Destructor('1'))
    ensures "::" + If(false, "~") == "::" && "::" + If(true, "~") == "::~"
  {
  }

  lemma NameIsGood(w: string)
    requires w != "" && |w| <= 0x7FFF_FFFF && !(|w| > 11 && w[..11] == "_GLOBAL__N_")
    requires 'a' <= w[0] <= 'z' || 'A' <= w[0] <= 'Z' || w[0] == '_'
    ensures IsName(w) && !IsAnonymous(w)
  {
  }

  lemma SpecialsAreShown(w: string)
    requires IsName(w) && !IsAnonymous(w)
    ensures var m := "_ZN" + Digits(|w|, 10) + w + "C1Ev"; Accepted(m) && Demangled(m) == w + "::" + w + "()"
    ensures var m := "_ZN" + Digits(|w|, 10) + w + "D1Ev"; Accepted(m) && Demangled(m) == w + "::~" + w + "()"
  {
    hide Digits, Accepted, Demangled, MangledPart, GoodPart, If, IsName, IsAnonymous;
    ConstructorTail();
    SpecialIsShown(w, Constructor('1'), "C1Ev", "::");
    SpecialIsShown(w, Destructor('1'), "D1Ev", "::~");
  }

  /** Constructors and destructors are called by their class, whatever identifier that is. */
  lemma ConstructorIsNamed(w: string)
    requires w != "" && |w| <= 0x7FFF_FFFF && !(|w| > 11 && w[..11] == "_GLOBAL__N_")
    requires 'a' <= w[0] <= 'z' || 'A' <= w[0] <= 'Z' || w[0] == '_'
    ensures var m := "_ZN" + Digits(|w|, 10) + w + "C1Ev"; Accepted(m) && Demangled(m) == w + "::" + w + "()"
    ensures var m := "_ZN" + Digits(|w|, 10) + w + "D1Ev"; Accepted(m) && Demangled(m) == w + "::~" + w + "()"
  {
    hide Digits, Accepted, Demangled, IsName, IsAnonymous;
    NameIsGood(w);
    SpecialsAreShown(w);
  }

  // ---------- cases of the unit test ----------

  lemma FooCases()
    ensures Accepted("_ZN3FooC1Ev") && Demangled("_ZN3FooC1Ev") == "Foo::Foo()"
    ensures Accepted("_ZN3FooD1Ev") && Demangled("_ZN3FooD1Ev") == "Foo::~Foo()"
  {
    hide Accepted, Demangled;
    assert Digits(3, 10) == "3";
    hide Digits;
    ConstructorIsNamed("Foo");
    assert "_ZN" + "3" + "Foo" + "C1Ev" == "_ZN3FooC1Ev" && "Foo" + "::" + "Foo" + "()" == "Foo::Foo()";
    assert "_ZN" + "3" + "Foo" + "D1Ev" == "_ZN3FooD1Ev" && "Foo" + "::~" + "Foo" + "()" == "Foo::~Foo()";
  }

  /** A length of two digits. */
  lemma LongCase()
    ensures Accepted("_ZN10UnicodeSetC1Ev") && Demangled("_ZN10UnicodeSetC1Ev") == "UnicodeSet::UnicodeSet()"
  {
    hide Accepted, Demangled, Digits;
    TenInDigits();
    ConstructorIsNamed("UnicodeSet");
    assert "_ZN" + "10" + "UnicodeSet" + "C1Ev" == "_ZN10UnicodeSetC1Ev";
    assert "UnicodeSet" + "::" + "UnicodeSet" + "()" == "UnicodeSet::UnicodeSet()";
  }

  lemma TenInDigits()
    ensures Digits(10, 10) == "10"
  {
  }
}
