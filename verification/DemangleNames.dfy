/** Names of functions, data and types as a compiler builds them: how the ABI mangles them, and what a reader wants to
    see of them. Neither mentions the grammar of the demangler. */
module DemangleNames {
  import opened DemangleDerivation
  import opened DemangleSpec
  import opened DemangleOutput

  /** Types, and what else can be a template argument; the tables of the demangler give the letters of builtin types and
      of the standard library. */
  datatype Ty =
    | Builtin(c: char)
    | Derived(c: char, of: Ty)                            // pointer, reference, complex, imaginary
    | Qualified(r: bool, v: bool, k: bool, of: Ty)
    | ClassType(name: Entity)
    | Short(sub: Sub)
    | Param(n: nat)
    | ParamOf(n: nat, args: Tys)                          // a template template parameter
    | Signature(linkage: bool, params: Tys)               // with or without C linkage
    | Array(size: nat, of: Ty)
    | MemberPointer(owner: Ty, of: Ty)
    | Vendor(w: string, of: Ty)                           // with a qualifier of a vendor
    | VendorType(w: string)
    | Literal(of: Ty, value: int)
    | Address(enc: Encoded)

  /** What stands for a name: of the standard library, or the number n of those seen before. */
  datatype Sub = Standard(c: char) | Seen(n: nat)

  datatype Tys = NoTypes | Types(first: Ty, rest: Tys)

  /** One component of a qualified name. */
  datatype Part =
    | Identifier(w: string)
    | Internal(w: string)                                 // with internal linkage
    | Operator(a: char, b: char)
    | Cast(target: Ty)
    | Constructor(kind: char)
    | Destructor(kind: char)
    | Shortened(sub: Sub)
    | Parameter(n: nat)

  /** Components with their template arguments; none are no argument list. */
  datatype Path = Single(part: Part, args: Tys) | Chain(part: Part, args: Tys, rest: Path)

  datatype Entity =
    | Plain(std: bool, part: Part, args: Tys)
    | Instance(sub: Sub, args: Tys)                       // of a template that has an abbreviation
    | Scoped(r: bool, v: bool, k: bool, path: Path)
    | Local(enc: Encoded, name: Entity)

  datatype Encoded =
    | Function(name: Entity, params: Tys)
    | Data(name: Entity)
    | OfType(c: char, of: Ty)                             // tables and type information
    | Guard(name: Entity)
    | Thunk(self: Offset, target: Encoded)
    | Covariant(self: Offset, result: Offset, target: Encoded)
    | Construction(whole: Ty, at: nat, base: Ty)          // the table of a base under construction

  datatype Offset = Fixed(n: int) | Virtual(n: int, at: int)

  // ---------- which of them there are ----------

  /** The letters, digits and the underscore begin what is no number; names begin with a letter or an underscore. */
  predicate IsName(w: string) {
    && w != "" && |w| <= 0x7FFF_FFFF
    && ('a' <= w[0] <= 'z' || 'A' <= w[0] <= 'Z' || w[0] == '_')
  }

  predicate IsAnonymous(w: string) { |w| > 11 && w[..11] == "_GLOBAL__N_" }

  predicate InTable(table: seq<Abbreviation>, key: Key) { Find(table, 0, key) < |table| }

  predicate GoodSub(s: Sub) { s.Standard? ==> InTable(SUBSTITUTIONS, Second(s.c)) }

  predicate GoodTy(t: Ty)
    decreases t, 0
  {
    match t
    case Builtin(c) => InTable(BUILTINS, First(c))
    case Derived(c, of) => c in "PRCG" && GoodTy(of)
    case Qualified(r, v, k, of) => (r || v || k) && !of.Qualified? && GoodTy(of)
    case ClassType(name) => GoodClass(name)
    case Short(sub) => GoodSub(sub) && sub != Standard('t')
    case Param(_) => true
    case ParamOf(_, args) => args.Types? && GoodTys(args, true)
    case Signature(_, params) => params.Types? && GoodTys(params, false)
    case Array(_, of) => GoodTy(of)
    case MemberPointer(owner, of) => GoodTy(owner) && GoodTy(of)
    case Vendor(w, of) => IsName(w) && GoodTy(of)
    case VendorType(w) => IsName(w)
    case _ => false
  }

  /** Parameters or arguments. A value must not look like an internal name, which is tried before it. */
  predicate GoodElement(t: Ty, args: bool)
    decreases t, 1
  {
    match t
    case Literal(of, _) => args && GoodTy(of) && var w := MangledTy(of); w != "" && !('0' <= w[0] <= '9') && w[0] != 'n'
    case Address(enc) => args && GoodEncoded(enc)
    case _ => GoodTy(t)
  }

  predicate GoodTys(ts: Tys, args: bool) {
    ts.Types? ==> GoodElement(ts.first, args) && GoodTys(ts.rest, args)
  }

  /** A class has no operator for a name. */
  predicate GoodClass(e: Entity)
    decreases e, 1
  {
    GoodEntity(e) && (e.Plain? ==> e.part.Identifier? || e.part.Internal?)
  }

  predicate GoodPart(p: Part) {
    match p
    case Identifier(w) => IsName(w)
    case Internal(w) => IsName(w)
    case Operator(a, b) =>
      && 'a' <= a <= 'z' && ('a' <= b <= 'z' || 'A' <= b <= 'Z') && a != 'v' && [a, b] != "cv"
      && InTable(OPERATORS, Both(a, b))
    case Cast(target) => GoodTy(target)
    case Constructor(kind) => kind in "123"
    case Destructor(kind) => kind in "012"
    case Shortened(sub) => GoodSub(sub)
    case Parameter(_) => true
  }

  /** The type of a cast takes the arguments behind it for its own. */
  predicate Fits(p: Part, args: Tys) { p.Cast? ==> args.NoTypes? }

  /** May it be the first component of a qualified name? */
  predicate BeginsPath(p: Part) { p.Identifier? || p.Internal? || p.Shortened? || p.Parameter? }

  predicate IsSpecial(p: Part) { p.Constructor? || p.Destructor? }

  /** The name of a component, or nothing if it has none of its own. */
  function ClassName(p: Part): string {
    match p
    case Identifier(w) => if IsAnonymous(w) then "" else w
    case Internal(w) => if IsAnonymous(w) then "" else w
    case Shortened(sub) => if sub.Seen? || sub.c == 't' then "" else Entry(SUBSTITUTIONS, Second(sub.c))
    case _ => ""
  }

  /** Constructors and destructors follow the name of their class. */
  predicate GoodPath(path: Path, before: Part) {
    && GoodPart(path.part) && GoodTys(path.args, true) && Fits(path.part, path.args)
    && (IsSpecial(path.part) ==> ClassName(before) != "")
    && (path.Chain? ==> GoodPath(path.rest, path.part))
  }

  /** Before the first component. */
  const NOTHING := Parameter(0)

  predicate GoodEntity(e: Entity)
    decreases e, 0
  {
    match e
    case Plain(_, part, args) =>
      && (part.Identifier? || part.Internal? || part.Operator? || part.Cast?)
      && GoodPart(part) && GoodTys(args, true) && Fits(part, args)
    case Instance(sub, args) => GoodSub(sub) && sub != Standard('t') && args.Types? && GoodTys(args, true)
    case Scoped(_, _, _, path) => BeginsPath(path.part) && GoodPath(path, NOTHING)
    case Local(enc, name) => GoodEncoded(enc) && GoodEntity(name)
  }

  predicate GoodEncoded(e: Encoded) {
    match e
    case Function(name, params) => GoodEntity(name) && params.Types? && GoodTys(params, false)
    case Data(name) => GoodEntity(name)
    case OfType(c, of) => c in "VTIS" && GoodTy(of)
    case Guard(name) => GoodEntity(name)
    case Thunk(_, target) => GoodEncoded(target)
    case Covariant(_, _, target) => GoodEncoded(target)
    case Construction(whole, _, base) => GoodTy(whole) && GoodTy(base)
  }

  // ---------- how they are mangled ----------

  const DIGITS := "0123456789ABCDEFGHIJKLMNOPQRSTUVWXYZ"

  /** The digits of a number. */
  function Digits(n: nat, base: nat): string
    requires 2 <= base <= 36
  {
    if n < base then [DIGITS[n]] else Digits(n / base, base) + [DIGITS[n % base]]
  }

  function SignedNumber(n: int): string { if n < 0 then "n" + Digits(-n, 10) else Digits(n, 10) }

  /** The first of a sequence has no number. */
  function Id(n: nat, base: nat): string
    requires 2 <= base <= 36
  {
    (if n == 0 then "" else Digits(n - 1, base)) + "_"
  }

  function If(b: bool, w: string): string { if b then w else "" }

  function Counted(w: string): string { Digits(|w|, 10) + w }

  function MangledSub(s: Sub): string { "S" + if s.Standard? then [s.c] else Id(s.n, 36) }

  function MangledTy(t: Ty): string {
    match t
    case Builtin(c) => [c]
    case Derived(c, of) => [c] + MangledTy(of)
    case Qualified(r, v, k, of) => Qualifiers(r, v, k) + MangledTy(of)
    case ClassType(name) => MangledEntity(name)
    case Short(sub) => MangledSub(sub)
    case Param(n) => "T" + Id(n, 10)
    case ParamOf(n, args) => "T" + (Id(n, 10) + MangledArgs(args))
    case Signature(linkage, params) => "F" + (If(linkage, "Y") + (MangledTys(params) + "E"))
    case Array(size, of) => "A" + (Digits(size, 10) + ("_" + MangledTy(of)))
    case MemberPointer(owner, of) => "M" + (MangledTy(owner) + MangledTy(of))
    case Vendor(w, of) => "U" + (Counted(w) + MangledTy(of))
    case VendorType(w) => "u" + Counted(w)
    case Literal(of, value) => "L" + (MangledTy(of) + (SignedNumber(value) + "E"))
    case Address(enc) => "L" + ("_Z" + MangledEncoded(enc) + "E")
  }

  function MangledTys(ts: Tys): string
    decreases ts, 0
  {
    if ts.NoTypes? then "" else MangledTy(ts.first) + MangledTys(ts.rest)
  }

  /** An argument list, or nothing. */
  function MangledArgs(ts: Tys): string
    decreases ts, 1
  {
    if ts.NoTypes? then "" else "I" + (MangledTys(ts) + "E")
  }

  function MangledPart(p: Part): string {
    match p
    case Identifier(w) => Counted(w)
    case Internal(w) => "L" + Counted(w)
    case Operator(a, b) => [a, b]
    case Cast(target) => "cv" + MangledTy(target)
    case Constructor(kind) => "C" + [kind]
    case Destructor(kind) => "D" + [kind]
    case Shortened(sub) => MangledSub(sub)
    case Parameter(n) => "T" + Id(n, 10)
  }

  function MangledPath(path: Path): string {
    MangledPart(path.part) + (MangledArgs(path.args) + if path.Chain? then MangledPath(path.rest) else "")
  }

  function MangledEntity(e: Entity): string {
    match e
    case Plain(std, part, args) => If(std, "St") + MangledPart(part) + MangledArgs(args)
    case Instance(sub, args) => MangledSub(sub) + MangledArgs(args)
    case Scoped(r, v, k, path) => "N" + (Qualifiers(r, v, k) + (MangledPath(path) + "E"))
    case Local(enc, name) => "Z" + (MangledEncoded(enc) + ("E" + MangledEntity(name)))
  }

  function MangledEncoded(e: Encoded): string {
    match e
    case Function(name, params) => MangledEntity(name) + MangledTys(params)
    case Data(name) => MangledEntity(name)
    case OfType(c, of) => "T" + ([c] + MangledTy(of))
    case Guard(name) => "GV" + MangledEntity(name)
    case Thunk(self, target) => "T" + (MangledOffset(self) + MangledEncoded(target))
    case Covariant(self, result, target) =>
      "Tc" + (MangledOffset(self) + (MangledOffset(result) + MangledEncoded(target)))
    case Construction(whole, at, base) => "TC" + (MangledTy(whole) + (Digits(at, 10) + ("_" + MangledTy(base))))
  }

  function MangledOffset(o: Offset): string {
    if o.Fixed? then "h" + (SignedNumber(o.n) + "_") else "v" + ((SignedNumber(o.n) + ("_" + SignedNumber(o.at))) + "_")
  }

  /** The symbol, with an optional version behind it. */
  function Mangled(e: Encoded, version: string): string { "_Z" + (MangledEncoded(e) + version) }

  predicate IsVersion(w: string) { w == "" || w[0] == '@' }

  // ---------- how they are shown ----------

  function SubText(s: Sub): string {
    if s.Seen? then "?" else if s.c == 't' then "std" else "std::" + Entry(SUBSTITUTIONS, Second(s.c))
  }

  /** A type without its pointers, qualifiers and bounds. */
  function TyText(t: Ty): string {
    match t
    case Builtin(c) => Entry(BUILTINS, First(c))
    case Derived(_, of) => TyText(of)
    case Qualified(_, _, _, of) => TyText(of)
    case ClassType(name) => EntityText(name)
    case Short(sub) => SubText(sub)
    case Param(_) => "?"
    case ParamOf(_, _) => "?<>"
    case Signature(_, _) => "()"
    case Array(_, of) => TyText(of)
    case MemberPointer(owner, of) => TyText(owner) + TyText(of)
    case Vendor(w, of) => NameText(w) + TyText(of)
    case VendorType(w) => NameText(w)
    case _ => ""
  }

  function NameText(w: string): string { if IsAnonymous(w) then "(anonymous namespace)" else w }

  function SymbolText(w: string): string { "operator" + If(w != "" && 'a' <= w[0] <= 'z', " ") + w }

  /** A component; constructors and destructors are called by the component before them. */
  function PartText(p: Part, before: Part): string {
    match p
    case Identifier(w) => NameText(w)
    case Internal(w) => NameText(w)
    case Operator(a, b) => SymbolText(Entry(OPERATORS, Both(a, b)))
    case Cast(target) => "operator " + TyText(target)
    case Constructor(_) => ClassName(before)
    case Destructor(_) => "~" + ClassName(before)
    case Shortened(sub) => SubText(sub)
    case Parameter(_) => "?"
  }

  /** Brackets for arguments, apart from a "<" before them. */
  function WithArgs(w: string, args: Tys): string {
    if args.NoTypes? then w else if w != "" && w[|w| - 1] == '<' then w + " <>" else w + "<>"
  }

  function PathText(path: Path, before: Part): string {
    WithArgs(PartText(path.part, before), path.args)
    + if path.Chain? then "::" + PathText(path.rest, path.part) else ""
  }

  function EntityText(e: Entity): string {
    match e
    case Plain(std, part, args) => If(std, "std::") + WithArgs(PartText(part, NOTHING), args)
    case Instance(sub, _) => SubText(sub) + "<>"
    case Scoped(_, _, _, path) => PathText(path, NOTHING)
    case Local(enc, name) => EncodedText(enc) + "::" + EntityText(name)
  }

  function EncodedText(e: Encoded): string {
    match e
    case Function(name, _) => EntityText(name) + "()"
    case Data(name) => EntityText(name)
    case OfType(_, of) => TyText(of)
    case Guard(name) => EntityText(name)
    case Thunk(_, target) => EncodedText(target)
    case Covariant(_, _, target) => EncodedText(target)
    case Construction(whole, _, _) => TyText(whole)
  }
}
