/** The demangler of demangle.cc: one mutable state that every parsing function advances, or puts back when it
    fails. Each function does what the interpreter of the grammar says. */
module Demangle {
  import opened DemangleGrammar
  import opened DemangleSpec
  import opened DemangleProgress
  import opened DemangleLength
  import opened DemangleBuffer
  import opened DemangleDerivation
  import opened DemangleControl
  import opened DemangleOutput
  import opened DemangleRoom
  import opened DemangleNames
  import opened DemangleRoundTrip

  class State {
    const mangled: string
    var mangledCur: int
    const out: array<char>
    var outCur: nat
    var prevName: int
    var prevNameLength: int
    var nestLevel: int
    var number: int
    var append: bool
    var overflowed: bool

    /** The state as a value. */
    ghost function Now(): St
      reads this, out
    {
      St(mangled, mangledCur, Out(out[..], outCur, prevName, prevNameLength, overflowed), nestLevel, number, append)
    }

    ghost predicate Valid()
      reads this, out
    {
      Ok(Now())
    }

    /** From here y can be read without a faulty length. */
    ghost predicate Readable(y: Sym)
      reads this, out
    {
      Ok(Now()) && EndSym(y, Now()) != Faulted
    }

    /** From v, this is how the run of y ended. */
    ghost predicate Parsed(y: Sym, v: St, ok: bool)
      reads this, out
    {
      Ok(Now()) && Ok(v) && EndSym(y, v) == (if ok then Matched(Now()) else Failed(Now()))
    }

    /** The same for several symbols in a row. */
    ghost predicate ReadableAll(p: Pat)
      reads this, out
    {
      Ok(Now()) && EndPat(p, Now()) != Faulted
    }

    ghost predicate ParsedAll(p: Pat, v: St, ok: bool)
      reads this, out
    {
      Ok(Now()) && Ok(v) && EndPat(p, v) == (if ok then Matched(Now()) else Failed(Now()))
    }

    constructor (mangled: string, out: array<char>)
      requires out.Length > 0
      ensures Valid() && this.out == out
      ensures Now() == Initial(mangled, out[..])
    {
      this.mangled := mangled;
      this.out := out;
      mangledCur, outCur := 0, 0;
      prevName, prevNameLength, nestLevel, number := -1, -1, -1, -1;
      append, overflowed := true, false;
    }

    method Save() returns (c: Copy)
      requires Valid()
      ensures c == CopyOf(Now())
    {
      c := Copy(mangledCur, outCur, prevName, prevNameLength, nestLevel, number, append, overflowed);
    }

    /** Put everything back as it was in s, except for the buffer. */
    method Reset(c: Copy, ghost s: St)
      requires Ok(s) && c == CopyOf(s) && s.src == Now().src
      modifies this
      ensures Now() == Restore(s, old(Now()))
    {
      mangledCur, outCur, prevName, prevNameLength := c.mangledCur, c.outCur, c.prevName, c.prevNameLength;
      nestLevel, number, append, overflowed := c.nestLevel, c.number, c.append, c.overflowed;
    }

    // ---------- characters ----------

    method RemainingLength() returns (n: int)
      ensures n == |Now().src| - Now().cur
    {
      n := |mangled| - mangledCur;
    }

    method ParseChar(c: char) returns (ok: bool)
      requires Valid()
      modifies this
      ensures Parsed(Lit([c]), old(Now()), ok)
    {
      TerminalEnd(Lit([c]), Now());
      hide EndSym;
      assert mangledCur < |mangled| ==> mangled[mangledCur..mangledCur + 1] == [mangled[mangledCur]];
      ok := |mangled| - mangledCur >= 1 && mangled[mangledCur] == c;
      if ok { mangledCur := mangledCur + 1; }
    }

    method ParseTwoChar(w: string) returns (ok: bool)
      requires Valid() && |w| == 2
      modifies this
      ensures Parsed(Lit(w), old(Now()), ok)
    {
      TerminalEnd(Lit(w), Now());
      hide EndSym;
      ok := |mangled| - mangledCur >= 2 && mangled[mangledCur] == w[0] && mangled[mangledCur + 1] == w[1];
      if ok { mangledCur := mangledCur + 2; }
    }

    method ParseCharClass(cs: string) returns (ok: bool)
      requires Valid()
      modifies this
      ensures Parsed(Class(cs), old(Now()), ok)
    {
      TerminalEnd(Class(cs), Now());
      hide EndSym;
      if mangledCur == |mangled| { return false; }
      for i := 0 to |cs|
        invariant Now() == old(Now()) && mangled[mangledCur] !in cs[..i]
      {
        if mangled[mangledCur] == cs[i] {
          mangledCur := mangledCur + 1;
          return true;
        }
      }
      ok := false;
    }

    // ---------- output ----------

    method Append(str: string)
      requires Valid()
      modifies this, out
      ensures Valid() && Now() == old(Now()).(out := DemangleSpec.Append(old(Now()).out, str))
    {
      ghost var v := Now();
      var i := 0;
      while i < |str|
        invariant 0 <= i <= |str| && Valid() && Now() == v.(out := Now().out)
        invariant DemangleSpec.Append(v.out, str) == DemangleSpec.Append(Now().out, str[i..])
      {
        if outCur + 1 < out.Length {
          out[outCur] := str[i];
          outCur := outCur + 1;
        } else {
          overflowed := true;
          return;
        }
        i := i + 1;
      }
      if !overflowed { out[outCur] := '\0'; }
    }

    /** Append from the output buffer itself. */
    method AppendCopy(from: nat, length: nat)
      requires Valid()
      modifies this, out
      ensures Valid() && Now() == old(Now()).(out := DemangleSpec.AppendCopy(old(Now()).out, from, length))
    {
      hide DemangleSpec.AppendCopy;
      ghost var v := Now();
      var i := 0;
      while i < length
        invariant 0 <= i <= length && Valid() && Now() == v.(out := Now().out)
        invariant DemangleSpec.AppendCopy(v.out, from, length)
               == DemangleSpec.AppendCopy(Now().out, from + i, length - i)
      {
        CopyUnfolds(Now().out, from + i, length - i);
        if outCur + 1 < out.Length {
          out[outCur] := if from + i < out.Length then out[from + i] else '\0';
          outCur := outCur + 1;
        } else {
          overflowed := true;
          return;
        }
        i := i + 1;
      }
      CopyUnfolds(Now().out, from + length, 0);
      if !overflowed { out[outCur] := '\0'; }
    }

    method MaybeAppendWithLength(str: string)
      requires Valid()
      modifies this, out
      ensures Valid() && Now() == Print(old(Now()), str)
    {
      if append && |str| > 0 {
        if str[0] == '<' && 0 < outCur && out[outCur - 1] == '<' { Append(" "); }
        if IsAlpha(str[0]) || str[0] == '_' {
          prevName, prevNameLength := outCur, |str|;
        }
        Append(str);
      }
    }

    method MaybeAppendPrevious(name: int, length: int)
      requires Valid() && name == Now().out.prevName && length == Now().out.prevLen
      modifies this, out
      ensures Valid() && Now() == PrintPrevious(old(Now()))
    {
      if append && length > 0 {
        if out[name] == '<' && 0 < outCur && out[outCur - 1] == '<' { Append(" "); }
        if IsAlpha(out[name]) || out[name] == '_' {
          prevName, prevNameLength := outCur, length;
        }
        AppendCopy(name, length);
      }
    }

    method MaybeAppend(str: string)
      requires Valid()
      modifies this, out
      ensures Valid() && Now() == Print(old(Now()), str)
      ensures Parsed(Emit(str), old(Now()), true)
    {
      TerminalEnd(Emit(str), Now());
      hide EndSym;
      if append { MaybeAppendWithLength(str); }
    }

    method EnterNestedName()
      requires Valid()
      modifies this`nestLevel
      ensures Valid() && Now() == old(Now()).(nest := 0)
    {
      nestLevel := 0;
    }

    method LeaveNestedName(prevValue: int)
      requires Valid()
      modifies this`nestLevel
      ensures Valid() && Now() == old(Now()).(nest := prevValue)
    {
      nestLevel := prevValue;
    }

    method DisableAppend()
      requires Valid()
      modifies this`append
      ensures Valid() && Now() == old(Now()).(append := false)
    {
      append := false;
    }

    method Appending() returns (b: bool)
      ensures b == Now().append
    {
      b := append;
    }

    method RestoreAppend(prevValue: bool)
      requires Valid()
      modifies this`append
      ensures Valid() && Now() == old(Now()).(append := prevValue)
    {
      append := prevValue;
    }

    method MaybeIncreaseNestLevel()
      requires Valid()
      modifies this`nestLevel
      ensures Valid() && Now() == Deeper(old(Now()))
    {
      if nestLevel > -1 { nestLevel := nestLevel + 1; }
    }

    method MaybeAppendSeparator()
      requires Valid()
      modifies this, out
      ensures Valid() && Now() == Separate(old(Now()))
    {
      if nestLevel >= 1 { MaybeAppend("::"); }
    }

    method MaybeCancelLastSeparator()
      requires Valid()
      modifies this, out
      ensures Valid() && Now() == CancelSeparator(old(Now()))
    {
      if nestLevel >= 1 && append && 0 <= outCur - 2 {
        outCur := outCur - 2;
        out[outCur] := '\0';
      }
    }

    // ---------- numbers and identifiers ----------

    /** <number> ::= [n] <non-negative decimal integer> */
    method ParseNumber() returns (ok: bool)
      requires Valid()
      modifies this
      ensures Parsed(NUMBER, old(Now()), ok)
    {
      hide EndSym, Skip, Value, DigitsEnd, Digit, RunNumeral;
      TerminalEnd(NUMBER, Now());
      NumberUnfolds(Now());
      SkipEnd(Now(), 'n');
      var sign := 1;
      var minus := ParseChar('n');
      if minus { sign := -1; }
      var p, value := Digits(Decimal);
      ok := p != mangledCur;
      if ok {
        mangledCur, number := p, value * sign;
      }
    }

    method ParseFloatNumber() returns (ok: bool)
      requires Valid()
      modifies this
      ensures Parsed(Numeral(Hexadecimal), old(Now()), ok)
    {
      TerminalEnd(Numeral(Hexadecimal), Now());
      hide EndSym;
      var p, value := Digits(Hexadecimal);
      ok := p != mangledCur;
      if ok {
        mangledCur, number := p, value;
      }
    }

    method ParseSeqId() returns (ok: bool)
      requires Valid()
      modifies this
      ensures Parsed(Numeral(Base36), old(Now()), ok)
    {
      TerminalEnd(Numeral(Base36), Now());
      hide EndSym;
      var p, value := Digits(Base36);
      ok := p != mangledCur;
      if ok {
        mangledCur, number := p, value;
      }
    }

    /** The loop the three share: read digits from the cursor on and add up their value. */
    method Digits(radix: Radix) returns (p: nat, value: int)
      requires Valid()
      ensures p == DigitsEnd(radix, mangled, mangledCur) && value == Value(radix, mangled[mangledCur..p])
    {
      p, value := ReadDigits(radix, mangled, mangledCur);
    }

    static method ReadDigits(radix: Radix, src: string, start: nat) returns (p: nat, value: int)
      requires start <= |src|
      ensures p == DigitsEnd(radix, src, start) && value == Value(radix, src[start..p])
    {
      hide Digit, Base;
      p, value := start, 0;
      while p < |src| && Digit(radix, src[p]) >= 0
        invariant start <= p <= |src|
        invariant DigitsEnd(radix, src, start) == DigitsEnd(radix, src, p)
        invariant value == Value(radix, src[start..p])
      {
        ValueStep(radix, src, start, p);
        value := value * Base(radix) + Digit(radix, src[p]);
        p := p + 1;
      }
    }

    /** Does prefix stand at the cursor? */
    method StrPrefix(prefix: string) returns (found: bool)
      requires Valid()
      ensures found == Starts(mangled, mangledCur, prefix)
    {
      var i := 0;
      while mangledCur + i < |mangled| && i < |prefix| && mangled[mangledCur + i] == prefix[i]
        invariant i <= |prefix| && mangledCur + i <= |mangled|
        invariant forall k :: 0 <= k < i ==> mangled[mangledCur + k] == prefix[k]
      {
        i := i + 1;
      }
      found := i == |prefix|;
      assert !found && mangledCur + |prefix| <= |mangled|
             ==> mangled[mangledCur..mangledCur + |prefix|][i] != prefix[i];
    }

    /** The comparison with the size of the prefix is unsigned. */
    method IdentifierIsAnonymousNamespace() returns (yes: bool)
      requires Valid()
      ensures yes == AnonymousAhead(Now())
    {
      yes := false;
      if number < 0 || number > |ANONYMOUS| {
        yes := StrPrefix(ANONYMOUS);
      }
    }

    /** <identifier> ::= <unqualified source code identifier>
        A negative number moves the cursor back, if need be to a place in front of the source. */
    method ParseIdentifier() returns (ok: bool)
      requires Valid()
      modifies this, out
      ensures Ended(IdentifierStep(old(Now())), old(Now()), ok)
    {
      hide Print, Starts;
      if number == -1 || |mangled| - mangledCur < number { return false; }
      var anonymous := IdentifierIsAnonymousNamespace();
      if anonymous {
        MaybeAppend("(anonymous namespace)");
      } else if number > 0 {
        MaybeAppendWithLength(mangled[mangledCur..mangledCur + number]);
      }
      mangledCur := mangledCur + number;
      number := -1;
      ok := true;
    }

    /** This is how the step as written ended: it left its state, or failed and left the one it began with. */
    ghost predicate Ended(step: Outcome, v: St, ok: bool)
      reads this, out
    {
      ok == step.Ends? && Now() == if step.Ends? then step.st else v
    }

    /** <source-name> ::= <positive length number> <identifier>
        For any length; without a faulty one it is what the grammar says. */
    method ParseSourceName() returns (ok: bool)
      requires Valid()
      modifies this, out
      ensures Ended(SourceNameStep(old(Now())), old(Now()), ok)
      ensures old(Readable(N(SourceName))) ==> Parsed(N(SourceName), old(Now()), ok)
    {
      ghost var v := Now();
      SourceNameEnds(v);
      TerminalEnd(NUMBER, v);
      hide EndSym, Now, RunNumeral, IdentifierStep, CopyOf;
      var copy := Save();
      ok := ParseNumber();
      if ok {
        ok := ParseIdentifier();
        if ok { return; }
      }
      Reset(copy, v);
    }

    /** <mangled-name> ::= _Z <encoding>, and a version suffix. A failure here is not undone. */
    method ParseMangledName() returns (ok: bool)
      requires Readable(N(MangledName))
      modifies this, out
      ensures Parsed(N(MangledName), old(Now()), ok)
      decreases Left(Now()), 1, 2
    {
      hide EndSym, EndPat, EndFrom, Now, Ok, OkOut, CopyOf, Restore, Descends, Progress.Good;
      ghost var g := Begin(MangledName, Now());
      Started(MangledName, Now());
      Try(g, Now());
      ok := ParseEncodingAndSuffix();
    }

    method ParseEncodingAndSuffix() returns (ok: bool)
      requires ReadableAll(Three(Lit("_Z"), N(Encoding), Suffix))
      modifies this, out
      ensures ParsedAll(Three(Lit("_Z"), N(Encoding), Suffix), old(Now()), ok)
      decreases Left(Now()), 1, 0
    {
      ghost var p := Three(Lit("_Z"), N(Encoding), Suffix);
      hide EndSym, EndPat, Now, Ok, OkOut, Restore;
      PatEnd(p, Now());
      ok := ParseTwoChar("_Z");
      if !ok { return; }
      PatEnd(p.tail, Now());
      ok := ParseEncoding();
      if !ok { return; }
      PatEnd(p.tail.tail, Now());
      ok := AppendVersionSuffix();
      if !ok { return; }
      PatEnd(Done, Now());
    }

    /** <encoding> ::= <(function) name> <bare-function-type> | <(data) name> | <special-name> */
    method ParseEncoding() returns (ok: bool)
      requires Readable(N(Encoding))
      modifies this, out
      ensures Parsed(N(Encoding), old(Now()), ok)
      decreases Left(Now()), 6, 2
    {
      hide EndSym, EndPat, EndFrom, Now, Ok, OkOut, CopyOf, Restore, Descends, Progress.Good;
      ghost var g := Begin(Encoding, Now());
      Started(Encoding, Now());
      var copy := Save();
      Try(g, Now());
      ok := ParseFunctionEncoding();
      if ok { return; }
      Reset(copy, g.from);
      g := g.Next(Now());
      TryOne(g, Now());
      ok := ParseName();
      if ok { return; }
      g := g.Next(Now());
      TryOne(g, Now());
      ok := ParseSpecialName();
    }

    method ParseFunctionEncoding() returns (ok: bool)
      requires ReadableAll(Two(N(Name), N(BareFunctionType)))
      modifies this, out
      ensures ParsedAll(Two(N(Name), N(BareFunctionType)), old(Now()), ok)
      decreases Left(Now()), 6, 0
    {
      ghost var p := Two(N(Name), N(BareFunctionType));
      hide EndSym, EndPat, Now, Ok, OkOut, Restore;
      PatEnd(p, Now());
      ok := ParseName();
      if !ok { return; }
      PatEnd(p.tail, Now());
      ok := ParseBareFunctionType();
      if !ok { return; }
      PatEnd(Done, Now());
    }

    /** <name> ::= <nested-name> | <local-name> | <unscoped-template-name> <template-args> | <unscoped-name> */
    method ParseName() returns (ok: bool)
      requires Readable(N(Name))
      modifies this, out
      ensures Parsed(N(Name), old(Now()), ok)
      decreases Left(Now()), 5, 2
    {
      hide EndSym, EndPat, EndFrom, Now, Ok, OkOut, CopyOf, Restore, Descends, Progress.Good;
      ghost var g := Begin(Name, Now());
      Started(Name, Now());
      TryOne(g, Now());
      ok := ParseNestedName();
      if ok { return; }
      g := g.Next(Now());
      TryOne(g, Now());
      ok := ParseLocalName();
      if ok { return; }
      g := g.Next(Now());
      var copy := Save();
      Try(g, Now());
      ok := ParseUnscopedTemplate();
      if ok { return; }
      Reset(copy, g.from);
      g := g.Next(Now());
      TryOne(g, Now());
      ok := ParseUnscopedName();
    }

    method ParseUnscopedTemplate() returns (ok: bool)
      requires ReadableAll(Two(N(UnscopedTemplateName), N(TemplateArgs)))
      modifies this, out
      ensures ParsedAll(Two(N(UnscopedTemplateName), N(TemplateArgs)), old(Now()), ok)
      decreases Left(Now()), 5, 0
    {
      ghost var p := Two(N(UnscopedTemplateName), N(TemplateArgs));
      hide EndSym, EndPat, Now, Ok, OkOut, Restore;
      PatEnd(p, Now());
      ok := ParseUnscopedTemplateName();
      if !ok { return; }
      PatEnd(p.tail, Now());
      ok := ParseTemplateArgs();
      if !ok { return; }
      PatEnd(Done, Now());
    }

    /** <unscoped-name> ::= <unqualified-name> | St <unqualified-name> */
    method ParseUnscopedName() returns (ok: bool)
      requires Readable(N(UnscopedName))
      modifies this, out
      ensures Parsed(N(UnscopedName), old(Now()), ok)
      decreases Left(Now()), 3, 2
    {
      hide EndSym, EndPat, EndFrom, Now, Ok, OkOut, CopyOf, Restore, Descends, Progress.Good;
      ghost var g := Begin(UnscopedName, Now());
      Started(UnscopedName, Now());
      TryOne(g, Now());
      ok := ParseUnqualifiedName();
      if ok { return; }
      g := g.Next(Now());
      var copy := Save();
      Try(g, Now());
      ok := ParseStdName();
      if ok { return; }
      Reset(copy, g.from);
    }

    method ParseStdName() returns (ok: bool)
      requires ReadableAll(Three(Lit("St"), Emit("std::"), N(UnqualifiedName)))
      modifies this, out
      ensures ParsedAll(Three(Lit("St"), Emit("std::"), N(UnqualifiedName)), old(Now()), ok)
      decreases Left(Now()), 3, 0
    {
      ghost var p := Three(Lit("St"), Emit("std::"), N(UnqualifiedName));
      hide EndSym, EndPat, Now, Ok, OkOut, Restore;
      PatEnd(p, Now());
      ok := ParseTwoChar("St");
      if !ok { return; }
      PatEnd(p.tail, Now());
      MaybeAppend("std::");
      PatEnd(p.tail.tail, Now());
      ok := ParseUnqualifiedName();
      if !ok { return; }
      PatEnd(Done, Now());
    }

    /** <unscoped-template-name> ::= <unscoped-name> | <substitution> */
    method ParseUnscopedTemplateName() returns (ok: bool)
      requires Readable(N(UnscopedTemplateName))
      modifies this, out
      ensures Parsed(N(UnscopedTemplateName), old(Now()), ok)
      decreases Left(Now()), 4, 2
    {
      hide EndSym, EndPat, EndFrom, Now, Ok, OkOut, CopyOf, Restore, Descends, Progress.Good;
      ghost var g := Begin(UnscopedTemplateName, Now());
      Started(UnscopedTemplateName, Now());
      TryOne(g, Now());
      ok := ParseUnscopedName();
      if ok { return; }
      g := g.Next(Now());
      TryOne(g, Now());
      ok := ParseSubstitution();
    }

    /** The choice inside the loop of ParsePrefix: <template-param> | <substitution> | <unscoped-name> */
    method ParsePrefixItem() returns (ok: bool)
      requires Readable(N(PrefixItem))
      modifies this, out
      ensures Parsed(N(PrefixItem), old(Now()), ok)
      decreases Left(Now()), 4, 2
    {
      hide EndSym, EndPat, EndFrom, Now, Ok, OkOut, CopyOf, Restore, Descends, Progress.Good;
      ghost var g := Begin(PrefixItem, Now());
      Started(PrefixItem, Now());
      TryOne(g, Now());
      ok := ParseTemplateParam();
      if ok { return; }
      g := g.Next(Now());
      TryOne(g, Now());
      ok := ParseSubstitution();
      if ok { return; }
      g := g.Next(Now());
      TryOne(g, Now());
      ok := ParseUnscopedName();
    }

    /** <unqualified-name> ::= <operator-name> | <ctor-dtor-name> | <source-name> | <local-source-name> */
    method ParseUnqualifiedName() returns (ok: bool)
      requires Readable(N(UnqualifiedName))
      modifies this, out
      ensures Parsed(N(UnqualifiedName), old(Now()), ok)
      decreases Left(Now()), 2, 2
    {
      hide EndSym, EndPat, EndFrom, Now, Ok, OkOut, CopyOf, Restore, Descends, Progress.Good;
      ghost var g := Begin(UnqualifiedName, Now());
      Started(UnqualifiedName, Now());
      TryOne(g, Now());
      ok := ParseOperatorName();
      if ok { return; }
      g := g.Next(Now());
      TryOne(g, Now());
      ok := ParseCtorDtorName();
      if ok { return; }
      g := g.Next(Now());
      ok := ParseUnqualifiedNameFrom3(g);
    }

    /** The alternatives of <unqualified-name> from number 3 on. */
    method ParseUnqualifiedNameFrom3(ghost start: Progress) returns (ok: bool)
      requires Ok(Now()) && start.Good(Now()) && EndFrom(start, Now()) != Faulted
      requires start == Progress(UnqualifiedName, Or1(One(N(LocalSourceName))), Now(), One(N(SourceName)))
      modifies this, out
      ensures Ok(Now()) && EndFrom(start, old(Now())) == (if ok then Matched(Now()) else Failed(Now()))
      decreases Left(Now()), 2, 1
    {
      hide Rule, EndSym, EndPat, EndFrom, Now, Ok, OkOut, CopyOf, Restore, Descends, Progress.Good;
      ghost var g := start;
      TryOne(g, Now());
      ok := ParseSourceName();
      if ok { return; }
      g := g.Next(Now());
      TryOne(g, Now());
      ok := ParseLocalSourceName();
    }

    /** <local-source-name> ::= L <source-name> [<discriminator>] */
    method ParseLocalSourceName() returns (ok: bool)
      requires Readable(N(LocalSourceName))
      modifies this, out
      ensures Parsed(N(LocalSourceName), old(Now()), ok)
      decreases Left(Now()), 1, 2
    {
      hide EndSym, EndPat, EndFrom, Now, Ok, OkOut, CopyOf, Restore, Descends, Progress.Good;
      ghost var g := Begin(LocalSourceName, Now());
      Started(LocalSourceName, Now());
      var copy := Save();
      Try(g, Now());
      ok := ParseLocalSource();
      if ok { return; }
      Reset(copy, g.from);
    }

    method ParseLocalSource() returns (ok: bool)
      requires ReadableAll(Three(Lit("L"), N(SourceName), Opt(N(Discriminator))))
      modifies this, out
      ensures ParsedAll(Three(Lit("L"), N(SourceName), Opt(N(Discriminator))), old(Now()), ok)
      decreases Left(Now()), 1, 0
    {
      ghost var p := Three(Lit("L"), N(SourceName), Opt(N(Discriminator)));
      hide EndSym, EndPat, Now, Ok, OkOut, Restore;
      PatEnd(p, Now());
      ok := ParseChar('L');
      if !ok { return; }
      PatEnd(p.tail, Now());
      ok := ParseSourceName();
      if !ok { return; }
      PatEnd(p.tail.tail, Now());
      OptEnd(N(Discriminator), Now());
      var _ := ParseDiscriminator();
      ok := true;
      PatEnd(Done, Now());
    }

    /** <special-name>: TV <type>, and so on */
    method ParseSpecialName() returns (ok: bool)
      requires Readable(N(SpecialName))
      modifies this, out
      ensures Parsed(N(SpecialName), old(Now()), ok)
      decreases Left(Now()), 1, 2
    {
      hide EndSym, EndPat, EndFrom, Now, Ok, OkOut, CopyOf, Restore, Descends, Progress.Good;
      ghost var g := Begin(SpecialName, Now());
      Started(SpecialName, Now());
      var copy := Save();
      Try(g, Now());
      ok := ParseTypeData();
      if ok { return; }
      Reset(copy, g.from);
      g := g.Next(Now());
      Try(g, Now());
      ok := ParseCovariantThunk();
      if ok { return; }
      Reset(copy, g.from);
      g := g.Next(Now());
      Try(g, Now());
      ok := ParseGuard();
      if ok { return; }
      Reset(copy, g.from);
      g := g.Next(Now());
      Try(g, Now());
      ok := ParseThunk();
      if ok { return; }
      Reset(copy, g.from);
      g := g.Next(Now());
      ok := ParseSpecialNameFrom5(copy, g);
    }

    /** The alternatives of <special-name> from number 5 on. */
    method ParseSpecialNameFrom5(copy: Copy, ghost start: Progress) returns (ok: bool)
      requires Ok(Now()) && copy == CopyOf(Now()) && start.Good(Now()) && EndFrom(start, Now()) != Faulted
      requires start == Progress(SpecialName, SpecialNameExtensions().rest, Now(), SpecialNameExtensions().first)
      modifies this, out
      ensures Ok(Now()) && EndFrom(start, old(Now())) == (if ok then Matched(Now()) else Failed(Now()))
      decreases Left(Now()), 1, 1, 1
    {
      hide Rule, EndSym, EndPat, EndFrom, Now, Ok, OkOut, CopyOf, Restore, Descends, Progress.Good;
      ghost var g := start;
      Try(g, Now());
      ok := ParseConstructionTable();
      if ok { return; }
      Reset(copy, g.from);
      g := g.Next(Now());
      Try(g, Now());
      ok := ParseTypeExtension();
      if ok { return; }
      Reset(copy, g.from);
      g := g.Next(Now());
      Try(g, Now());
      ok := ParseReference();
      if ok { return; }
      Reset(copy, g.from);
      g := g.Next(Now());
      ok := ParseSpecialNameFrom8(copy, g);
    }

    /** The alternatives of <special-name> from number 8 on. */
    method ParseSpecialNameFrom8(copy: Copy, ghost start: Progress) returns (ok: bool)
      requires Ok(Now()) && copy == CopyOf(Now()) && start.Good(Now()) && EndFrom(start, Now()) != Faulted
      requires start == Progress(SpecialName, EncodingExtensions().rest, Now(), EncodingExtensions().first)
      modifies this, out
      ensures Ok(Now()) && EndFrom(start, old(Now())) == (if ok then Matched(Now()) else Failed(Now()))
      decreases Left(Now()), 1, 1, 0
    {
      hide Rule, EndSym, EndPat, EndFrom, Now, Ok, OkOut, CopyOf, Restore, Descends, Progress.Good;
      ghost var g := start;
      Try(g, Now());
      ok := ParseAlias();
      if ok { return; }
      Reset(copy, g.from);
      g := g.Next(Now());
      Try(g, Now());
      ok := ParseOffsetThunk();
      if ok { return; }
      Reset(copy, g.from);
    }

    method ParseTypeData() returns (ok: bool)
      requires ReadableAll(Three(Lit("T"), Class("VTIS"), N(Type)))
      modifies this, out
      ensures ParsedAll(Three(Lit("T"), Class("VTIS"), N(Type)), old(Now()), ok)
      decreases Left(Now()), 1, 0
    {
      ghost var p := Three(Lit("T"), Class("VTIS"), N(Type));
      hide EndSym, EndPat, Now, Ok, OkOut, Restore;
      PatEnd(p, Now());
      ok := ParseChar('T');
      if !ok { return; }
      PatEnd(p.tail, Now());
      ok := ParseCharClass("VTIS");
      if !ok { return; }
      PatEnd(p.tail.tail, Now());
      ok := ParseType();
      if !ok { return; }
      PatEnd(Done, Now());
    }

    method ParseCovariantThunk() returns (ok: bool)
      requires ReadableAll(Four(Lit("Tc"), N(CallOffset), N(CallOffset), N(Encoding)))
      modifies this, out
      ensures ParsedAll(Four(Lit("Tc"), N(CallOffset), N(CallOffset), N(Encoding)), old(Now()), ok)
      decreases Left(Now()), 1, 0
    {
      ghost var p := Four(Lit("Tc"), N(CallOffset), N(CallOffset), N(Encoding));
      hide EndSym, EndPat, Now, Ok, OkOut, Restore;
      PatEnd(p, Now());
      ok := ParseTwoChar("Tc");
      if !ok { return; }
      PatEnd(p.tail, Now());
      ok := ParseCallOffset();
      if !ok { return; }
      PatEnd(p.tail.tail, Now());
      ok := ParseCallOffset();
      if !ok { return; }
      PatEnd(p.tail.tail.tail, Now());
      ok := ParseEncoding();
      if !ok { return; }
      PatEnd(Done, Now());
    }

    method ParseGuard() returns (ok: bool)
      requires ReadableAll(Two(Lit("GV"), N(Name)))
      modifies this, out
      ensures ParsedAll(Two(Lit("GV"), N(Name)), old(Now()), ok)
      decreases Left(Now()), 1, 0
    {
      ghost var p := Two(Lit("GV"), N(Name));
      hide EndSym, EndPat, Now, Ok, OkOut, Restore;
      PatEnd(p, Now());
      ok := ParseTwoChar("GV");
      if !ok { return; }
      PatEnd(p.tail, Now());
      ok := ParseName();
      if !ok { return; }
      PatEnd(Done, Now());
    }

    method ParseThunk() returns (ok: bool)
      requires ReadableAll(Three(Lit("T"), N(CallOffset), N(Encoding)))
      modifies this, out
      ensures ParsedAll(Three(Lit("T"), N(CallOffset), N(Encoding)), old(Now()), ok)
      decreases Left(Now()), 1, 0
    {
      ghost var p := Three(Lit("T"), N(CallOffset), N(Encoding));
      hide EndSym, EndPat, Now, Ok, OkOut, Restore;
      PatEnd(p, Now());
      ok := ParseChar('T');
      if !ok { return; }
      PatEnd(p.tail, Now());
      ok := ParseCallOffset();
      if !ok { return; }
      PatEnd(p.tail.tail, Now());
      ok := ParseEncoding();
      if !ok { return; }
      PatEnd(Done, Now());
    }

    method ParseConstructionTable() returns (ok: bool)
      requires ReadableAll(Then(Lit("TC"), Four(N(Type), NUMBER, Lit("_"), Quiet(One(N(Type))))))
      modifies this, out
      ensures ParsedAll(Then(Lit("TC"), Four(N(Type), NUMBER, Lit("_"), Quiet(One(N(Type))))), old(Now()), ok)
      decreases Left(Now()), 1, 0
    {
      ghost var p := Then(Lit("TC"), Four(N(Type), NUMBER, Lit("_"), Quiet(One(N(Type)))));
      hide EndSym, EndPat, Now, Ok, OkOut, Restore;
      PatEnd(p, Now());
      ok := ParseTwoChar("TC");
      if !ok { return; }
      PatEnd(p.tail, Now());
      ok := ParseType();
      if !ok { return; }
      PatEnd(p.tail.tail, Now());
      ok := ParseNumber();
      if !ok { return; }
      PatEnd(p.tail.tail.tail, Now());
      ok := ParseChar('_');
      if !ok { return; }
      PatEnd(p.tail.tail.tail.tail, Now());
      QuietOne(N(Type), Now());
      var append := Appending();
      DisableAppend();
      ok := ParseType();
      if !ok { return; }
      RestoreAppend(append);
      PatEnd(Done, Now());
    }

    method ParseTypeExtension() returns (ok: bool)
      requires ReadableAll(Three(Lit("T"), Class("FJ"), N(Type)))
      modifies this, out
      ensures ParsedAll(Three(Lit("T"), Class("FJ"), N(Type)), old(Now()), ok)
      decreases Left(Now()), 1, 0
    {
      ghost var p := Three(Lit("T"), Class("FJ"), N(Type));
      hide EndSym, EndPat, Now, Ok, OkOut, Restore;
      PatEnd(p, Now());
      ok := ParseChar('T');
      if !ok { return; }
      PatEnd(p.tail, Now());
      ok := ParseCharClass("FJ");
      if !ok { return; }
      PatEnd(p.tail.tail, Now());
      ok := ParseType();
      if !ok { return; }
      PatEnd(Done, Now());
    }

    method ParseReference() returns (ok: bool)
      requires ReadableAll(Two(Lit("GR"), N(Name)))
      modifies this, out
      ensures ParsedAll(Two(Lit("GR"), N(Name)), old(Now()), ok)
      decreases Left(Now()), 1, 0
    {
      ghost var p := Two(Lit("GR"), N(Name));
      hide EndSym, EndPat, Now, Ok, OkOut, Restore;
      PatEnd(p, Now());
      ok := ParseTwoChar("GR");
      if !ok { return; }
      PatEnd(p.tail, Now());
      ok := ParseName();
      if !ok { return; }
      PatEnd(Done, Now());
    }

    method ParseAlias() returns (ok: bool)
      requires ReadableAll(Two(Lit("GA"), N(Encoding)))
      modifies this, out
      ensures ParsedAll(Two(Lit("GA"), N(Encoding)), old(Now()), ok)
      decreases Left(Now()), 1, 0
    {
      ghost var p := Two(Lit("GA"), N(Encoding));
      hide EndSym, EndPat, Now, Ok, OkOut, Restore;
      PatEnd(p, Now());
      ok := ParseTwoChar("GA");
      if !ok { return; }
      PatEnd(p.tail, Now());
      ok := ParseEncoding();
      if !ok { return; }
      PatEnd(Done, Now());
    }

    method ParseOffsetThunk() returns (ok: bool)
      requires ReadableAll(Four(Lit("T"), Class("hv"), N(CallOffset), N(Encoding)))
      modifies this, out
      ensures ParsedAll(Four(Lit("T"), Class("hv"), N(CallOffset), N(Encoding)), old(Now()), ok)
      decreases Left(Now()), 1, 0
    {
      ghost var p := Four(Lit("T"), Class("hv"), N(CallOffset), N(Encoding));
      hide EndSym, EndPat, Now, Ok, OkOut, Restore;
      PatEnd(p, Now());
      ok := ParseChar('T');
      if !ok { return; }
      PatEnd(p.tail, Now());
      ok := ParseCharClass("hv");
      if !ok { return; }
      PatEnd(p.tail.tail, Now());
      ok := ParseCallOffset();
      if !ok { return; }
      PatEnd(p.tail.tail.tail, Now());
      ok := ParseEncoding();
      if !ok { return; }
      PatEnd(Done, Now());
    }

    /** <call-offset> ::= h <nv-offset> _ | v <v-offset> _ */
    method ParseCallOffset() returns (ok: bool)
      requires Readable(N(CallOffset))
      modifies this, out
      ensures Parsed(N(CallOffset), old(Now()), ok)
      decreases Left(Now()), 1, 2
    {
      hide EndSym, EndPat, EndFrom, Now, Ok, OkOut, CopyOf, Restore, Descends, Progress.Good;
      ghost var g := Begin(CallOffset, Now());
      Started(CallOffset, Now());
      var copy := Save();
      Try(g, Now());
      ok := ParseNonVirtualOffset();
      if ok { return; }
      Reset(copy, g.from);
      g := g.Next(Now());
      Try(g, Now());
      ok := ParseVirtualOffset();
      if ok { return; }
      Reset(copy, g.from);
    }

    method ParseNonVirtualOffset() returns (ok: bool)
      requires ReadableAll(Three(Lit("h"), N(NVOffset), Lit("_")))
      modifies this, out
      ensures ParsedAll(Three(Lit("h"), N(NVOffset), Lit("_")), old(Now()), ok)
      decreases Left(Now()), 1, 0
    {
      ghost var p := Three(Lit("h"), N(NVOffset), Lit("_"));
      hide EndSym, EndPat, Now, Ok, OkOut, Restore;
      PatEnd(p, Now());
      ok := ParseChar('h');
      if !ok { return; }
      PatEnd(p.tail, Now());
      ok := ParseNVOffset();
      if !ok { return; }
      PatEnd(p.tail.tail, Now());
      ok := ParseChar('_');
      if !ok { return; }
      PatEnd(Done, Now());
    }

    method ParseVirtualOffset() returns (ok: bool)
      requires ReadableAll(Three(Lit("v"), N(VOffset), Lit("_")))
      modifies this, out
      ensures ParsedAll(Three(Lit("v"), N(VOffset), Lit("_")), old(Now()), ok)
      decreases Left(Now()), 1, 0
    {
      ghost var p := Three(Lit("v"), N(VOffset), Lit("_"));
      hide EndSym, EndPat, Now, Ok, OkOut, Restore;
      PatEnd(p, Now());
      ok := ParseChar('v');
      if !ok { return; }
      PatEnd(p.tail, Now());
      ok := ParseVOffset();
      if !ok { return; }
      PatEnd(p.tail.tail, Now());
      ok := ParseChar('_');
      if !ok { return; }
      PatEnd(Done, Now());
    }

    /** <nv-offset> ::= <(offset) number>. A failure here is not undone. */
    method ParseNVOffset() returns (ok: bool)
      requires Readable(N(NVOffset))
      modifies this, out
      ensures Parsed(N(NVOffset), old(Now()), ok)
      decreases Left(Now()), 1, 2
    {
      hide EndSym, EndPat, EndFrom, Now, Ok, OkOut, CopyOf, Restore, Descends, Progress.Good;
      ghost var g := Begin(NVOffset, Now());
      Started(NVOffset, Now());
      TryOne(g, Now());
      ok := ParseNumber();
    }

    /** <v-offset> ::= <(offset) number> _ <(virtual offset) number> */
    method ParseVOffset() returns (ok: bool)
      requires Readable(N(VOffset))
      modifies this, out
      ensures Parsed(N(VOffset), old(Now()), ok)
      decreases Left(Now()), 1, 2
    {
      hide EndSym, EndPat, EndFrom, Now, Ok, OkOut, CopyOf, Restore, Descends, Progress.Good;
      ghost var g := Begin(VOffset, Now());
      Started(VOffset, Now());
      var copy := Save();
      Try(g, Now());
      ok := ParseTwoNumbers();
      if ok { return; }
      Reset(copy, g.from);
    }

    method ParseTwoNumbers() returns (ok: bool)
      requires ReadableAll(Three(NUMBER, Lit("_"), NUMBER))
      modifies this, out
      ensures ParsedAll(Three(NUMBER, Lit("_"), NUMBER), old(Now()), ok)
      decreases Left(Now()), 1, 0
    {
      ghost var p := Three(NUMBER, Lit("_"), NUMBER);
      hide EndSym, EndPat, Now, Ok, OkOut, Restore;
      PatEnd(p, Now());
      ok := ParseNumber();
      if !ok { return; }
      PatEnd(p.tail, Now());
      ok := ParseChar('_');
      if !ok { return; }
      PatEnd(p.tail.tail, Now());
      ok := ParseNumber();
      if !ok { return; }
      PatEnd(Done, Now());
    }

    /** <type> */
    method ParseType() returns (ok: bool)
      requires Readable(N(Type))
      modifies this, out
      ensures Parsed(N(Type), old(Now()), ok)
      decreases Left(Now()), 7, 2
    {
      hide EndSym, EndPat, EndFrom, Now, Ok, OkOut, CopyOf, Restore, Descends, Progress.Good;
      ghost var g := Begin(Type, Now());
      Started(Type, Now());
      var copy := Save();
      Try(g, Now());
      ok := ParseQualifiedType();
      if ok { return; }
      Reset(copy, g.from);
      g := g.Next(Now());
      Try(g, Now());
      ok := ParseCompoundType();
      if ok { return; }
      Reset(copy, g.from);
      g := g.Next(Now());
      Try(g, Now());
      ok := ParseVendorType();
      if ok { return; }
      Reset(copy, g.from);
      g := g.Next(Now());
      ok := ParseTypeFrom4(copy, g);
    }

    /** The alternatives of <type> from number 4 on. */
    method ParseTypeFrom4(copy: Copy, ghost start: Progress) returns (ok: bool)
      requires Ok(Now()) && copy == CopyOf(Now()) && start.Good(Now()) && EndFrom(start, Now()) != Faulted
      requires start == Progress(Type, SimpleTypes().rest, Now(), SimpleTypes().first)
      modifies this, out
      ensures Ok(Now()) && EndFrom(start, old(Now())) == (if ok then Matched(Now()) else Failed(Now()))
      decreases Left(Now()), 7, 1, 2
    {
      hide Rule, EndSym, EndPat, EndFrom, Now, Ok, OkOut, CopyOf, Restore, Descends, Progress.Good;
      ghost var g := start;
      TryOne(g, Now());
      ok := ParseBuiltinType();
      if ok { return; }
      g := g.Next(Now());
      TryOne(g, Now());
      ok := ParseFunctionType();
      if ok { return; }
      g := g.Next(Now());
      TryOne(g, Now());
      ok := ParseClassEnumType();
      if ok { return; }
      g := g.Next(Now());
      ok := ParseTypeFrom7(copy, g);
    }

    /** The alternatives of <type> from number 7 on. */
    method ParseTypeFrom7(copy: Copy, ghost start: Progress) returns (ok: bool)
      requires Ok(Now()) && copy == CopyOf(Now()) && start.Good(Now()) && EndFrom(start, Now()) != Faulted
      requires start == Progress(Type, CompoundTypes().rest, Now(), CompoundTypes().first)
      modifies this, out
      ensures Ok(Now()) && EndFrom(start, old(Now())) == (if ok then Matched(Now()) else Failed(Now()))
      decreases Left(Now()), 7, 1, 1
    {
      hide Rule, EndSym, EndPat, EndFrom, Now, Ok, OkOut, CopyOf, Restore, Descends, Progress.Good;
      ghost var g := start;
      TryOne(g, Now());
      ok := ParseArrayType();
      if ok { return; }
      g := g.Next(Now());
      TryOne(g, Now());
      ok := ParsePointerToMemberType();
      if ok { return; }
      g := g.Next(Now());
      TryOne(g, Now());
      ok := ParseSubstitution();
      if ok { return; }
      g := g.Next(Now());
      ok := ParseTypeFrom10(copy, g);
    }

    /** The alternatives of <type> from number 10 on. */
    method ParseTypeFrom10(copy: Copy, ghost start: Progress) returns (ok: bool)
      requires Ok(Now()) && copy == CopyOf(Now()) && start.Good(Now()) && EndFrom(start, Now()) != Faulted
      requires start == Progress(Type, TemplateTypes().rest, Now(), TemplateTypes().first)
      modifies this, out
      ensures Ok(Now()) && EndFrom(start, old(Now())) == (if ok then Matched(Now()) else Failed(Now()))
      decreases Left(Now()), 7, 1, 0
    {
      hide Rule, EndSym, EndPat, EndFrom, Now, Ok, OkOut, CopyOf, Restore, Descends, Progress.Good;
      ghost var g := start;
      Try(g, Now());
      ok := ParseTemplateType();
      if ok { return; }
      Reset(copy, g.from);
      g := g.Next(Now());
      TryOne(g, Now());
      ok := ParseTemplateParam();
    }

    method ParseQualifiedType() returns (ok: bool)
      requires ReadableAll(Two(CVQualifiers, N(Type)))
      modifies this, out
      ensures ParsedAll(Two(CVQualifiers, N(Type)), old(Now()), ok)
      decreases Left(Now()), 7, 0
    {
      ghost var p := Two(CVQualifiers, N(Type));
      hide EndSym, EndPat, Now, Ok, OkOut, Restore;
      PatEnd(p, Now());
      ok := ParseCVQualifiers();
      if !ok { return; }
      PatEnd(p.tail, Now());
      ok := ParseType();
      if !ok { return; }
      PatEnd(Done, Now());
    }

    method ParseCompoundType() returns (ok: bool)
      requires ReadableAll(Two(Class("PRCG"), N(Type)))
      modifies this, out
      ensures ParsedAll(Two(Class("PRCG"), N(Type)), old(Now()), ok)
      decreases Left(Now()), 7, 0
    {
      ghost var p := Two(Class("PRCG"), N(Type));
      hide EndSym, EndPat, Now, Ok, OkOut, Restore;
      PatEnd(p, Now());
      ok := ParseCharClass("PRCG");
      if !ok { return; }
      PatEnd(p.tail, Now());
      ok := ParseType();
      if !ok { return; }
      PatEnd(Done, Now());
    }

    method ParseVendorType() returns (ok: bool)
      requires ReadableAll(Three(Lit("U"), N(SourceName), N(Type)))
      modifies this, out
      ensures ParsedAll(Three(Lit("U"), N(SourceName), N(Type)), old(Now()), ok)
      decreases Left(Now()), 7, 0
    {
      ghost var p := Three(Lit("U"), N(SourceName), N(Type));
      hide EndSym, EndPat, Now, Ok, OkOut, Restore;
      PatEnd(p, Now());
      ok := ParseChar('U');
      if !ok { return; }
      PatEnd(p.tail, Now());
      ok := ParseSourceName();
      if !ok { return; }
      PatEnd(p.tail.tail, Now());
      ok := ParseType();
      if !ok { return; }
      PatEnd(Done, Now());
    }

    method ParseTemplateType() returns (ok: bool)
      requires ReadableAll(Two(N(TemplateTemplateParam), N(TemplateArgs)))
      modifies this, out
      ensures ParsedAll(Two(N(TemplateTemplateParam), N(TemplateArgs)), old(Now()), ok)
      decreases Left(Now()), 7, 0
    {
      ghost var p := Two(N(TemplateTemplateParam), N(TemplateArgs));
      hide EndSym, EndPat, Now, Ok, OkOut, Restore;
      PatEnd(p, Now());
      ok := ParseTemplateTemplateParam();
      if !ok { return; }
      PatEnd(p.tail, Now());
      ok := ParseTemplateArgs();
      if !ok { return; }
      PatEnd(Done, Now());
    }

    /** <function-type> ::= F [Y] <bare-function-type> E */
    method ParseFunctionType() returns (ok: bool)
      requires Readable(N(FunctionType))
      modifies this, out
      ensures Parsed(N(FunctionType), old(Now()), ok)
      decreases Left(Now()), 1, 2
    {
      hide EndSym, EndPat, EndFrom, Now, Ok, OkOut, CopyOf, Restore, Descends, Progress.Good;
      ghost var g := Begin(FunctionType, Now());
      Started(FunctionType, Now());
      var copy := Save();
      Try(g, Now());
      ok := ParseFunction();
      if ok { return; }
      Reset(copy, g.from);
    }

    method ParseFunction() returns (ok: bool)
      requires ReadableAll(Four(Lit("F"), Opt(Lit("Y")), N(BareFunctionType), Lit("E")))
      modifies this, out
      ensures ParsedAll(Four(Lit("F"), Opt(Lit("Y")), N(BareFunctionType), Lit("E")), old(Now()), ok)
      decreases Left(Now()), 1, 0
    {
      ghost var p := Four(Lit("F"), Opt(Lit("Y")), N(BareFunctionType), Lit("E"));
      hide EndSym, EndPat, Now, Ok, OkOut, Restore;
      PatEnd(p, Now());
      ok := ParseChar('F');
      if !ok { return; }
      PatEnd(p.tail, Now());
      OptEnd(Lit("Y"), Now());
      var _ := ParseChar('Y');
      PatEnd(p.tail.tail, Now());
      ok := ParseBareFunctionType();
      if !ok { return; }
      PatEnd(p.tail.tail.tail, Now());
      ok := ParseChar('E');
      if !ok { return; }
      PatEnd(Done, Now());
    }

    /** <class-enum-type> ::= <name> */
    method ParseClassEnumType() returns (ok: bool)
      requires Readable(N(ClassEnumType))
      modifies this, out
      ensures Parsed(N(ClassEnumType), old(Now()), ok)
      decreases Left(Now()), 6, 2
    {
      hide EndSym, EndPat, EndFrom, Now, Ok, OkOut, CopyOf, Restore, Descends, Progress.Good;
      ghost var g := Begin(ClassEnumType, Now());
      Started(ClassEnumType, Now());
      TryOne(g, Now());
      ok := ParseName();
    }

    /** <array-type> ::= A <(positive dimension) number> _ <(element) type>
                   ::= A [<(dimension) expression>] _ <(element) type> */
    method ParseArrayType() returns (ok: bool)
      requires Readable(N(ArrayType))
      modifies this, out
      ensures Parsed(N(ArrayType), old(Now()), ok)
      decreases Left(Now()), 1, 2
    {
      hide EndSym, EndPat, EndFrom, Now, Ok, OkOut, CopyOf, Restore, Descends, Progress.Good;
      ghost var g := Begin(ArrayType, Now());
      Started(ArrayType, Now());
      var copy := Save();
      Try(g, Now());
      ok := ParseSizedArray();
      if ok { return; }
      Reset(copy, g.from);
      g := g.Next(Now());
      Try(g, Now());
      ok := ParseGeneralArray();
      if ok { return; }
      Reset(copy, g.from);
    }

    method ParseSizedArray() returns (ok: bool)
      requires ReadableAll(Four(Lit("A"), NUMBER, Lit("_"), N(Type)))
      modifies this, out
      ensures ParsedAll(Four(Lit("A"), NUMBER, Lit("_"), N(Type)), old(Now()), ok)
      decreases Left(Now()), 1, 0
    {
      ghost var p := Four(Lit("A"), NUMBER, Lit("_"), N(Type));
      hide EndSym, EndPat, Now, Ok, OkOut, Restore;
      PatEnd(p, Now());
      ok := ParseChar('A');
      if !ok { return; }
      PatEnd(p.tail, Now());
      ok := ParseNumber();
      if !ok { return; }
      PatEnd(p.tail.tail, Now());
      ok := ParseChar('_');
      if !ok { return; }
      PatEnd(p.tail.tail.tail, Now());
      ok := ParseType();
      if !ok { return; }
      PatEnd(Done, Now());
    }

    method ParseGeneralArray() returns (ok: bool)
      requires ReadableAll(Four(Lit("A"), Opt(N(Expression)), Lit("_"), N(Type)))
      modifies this, out
      ensures ParsedAll(Four(Lit("A"), Opt(N(Expression)), Lit("_"), N(Type)), old(Now()), ok)
      decreases Left(Now()), 1, 0
    {
      ghost var p := Four(Lit("A"), Opt(N(Expression)), Lit("_"), N(Type));
      hide EndSym, EndPat, Now, Ok, OkOut, Restore;
      PatEnd(p, Now());
      ok := ParseChar('A');
      if !ok { return; }
      PatEnd(p.tail, Now());
      OptEnd(N(Expression), Now());
      var _ := ParseExpression();
      PatEnd(p.tail.tail, Now());
      ok := ParseChar('_');
      if !ok { return; }
      PatEnd(p.tail.tail.tail, Now());
      ok := ParseType();
      if !ok { return; }
      PatEnd(Done, Now());
    }

    /** <pointer-to-member-type> ::= M <(class) type> <(member) type> */
    method ParsePointerToMemberType() returns (ok: bool)
      requires Readable(N(PointerToMemberType))
      modifies this, out
      ensures Parsed(N(PointerToMemberType), old(Now()), ok)
      decreases Left(Now()), 1, 2
    {
      hide EndSym, EndPat, EndFrom, Now, Ok, OkOut, CopyOf, Restore, Descends, Progress.Good;
      ghost var g := Begin(PointerToMemberType, Now());
      Started(PointerToMemberType, Now());
      var copy := Save();
      Try(g, Now());
      ok := ParseMemberPointer();
      if ok { return; }
      Reset(copy, g.from);
    }

    method ParseMemberPointer() returns (ok: bool)
      requires ReadableAll(Three(Lit("M"), N(Type), N(Type)))
      modifies this, out
      ensures ParsedAll(Three(Lit("M"), N(Type), N(Type)), old(Now()), ok)
      decreases Left(Now()), 1, 0
    {
      ghost var p := Three(Lit("M"), N(Type), N(Type));
      hide EndSym, EndPat, Now, Ok, OkOut, Restore;
      PatEnd(p, Now());
      ok := ParseChar('M');
      if !ok { return; }
      PatEnd(p.tail, Now());
      ok := ParseType();
      if !ok { return; }
      PatEnd(p.tail.tail, Now());
      ok := ParseType();
      if !ok { return; }
      PatEnd(Done, Now());
    }

    /** <template-template-param> ::= <template-param> | <substitution> */
    method ParseTemplateTemplateParam() returns (ok: bool)
      requires Readable(N(TemplateTemplateParam))
      modifies this, out
      ensures Parsed(N(TemplateTemplateParam), old(Now()), ok)
      decreases Left(Now()), 2, 2
    {
      hide EndSym, EndPat, EndFrom, Now, Ok, OkOut, CopyOf, Restore, Descends, Progress.Good;
      ghost var g := Begin(TemplateTemplateParam, Now());
      Started(TemplateTemplateParam, Now());
      TryOne(g, Now());
      ok := ParseTemplateParam();
      if ok { return; }
      g := g.Next(Now());
      TryOne(g, Now());
      ok := ParseSubstitution();
    }

    /** <template-arg> ::= <type> | <expr-primary> | X <expression> E */
    method ParseTemplateArg() returns (ok: bool)
      requires Readable(N(TemplateArg))
      modifies this, out
      ensures Parsed(N(TemplateArg), old(Now()), ok)
      decreases Left(Now()), 8, 2
    {
      hide EndSym, EndPat, EndFrom, Now, Ok, OkOut, CopyOf, Restore, Descends, Progress.Good;
      ghost var g := Begin(TemplateArg, Now());
      Started(TemplateArg, Now());
      TryOne(g, Now());
      ok := ParseType();
      if ok { return; }
      g := g.Next(Now());
      TryOne(g, Now());
      ok := ParseExprPrimary();
      if ok { return; }
      g := g.Next(Now());
      var copy := Save();
      Try(g, Now());
      ok := ParseExpressionArg();
      if ok { return; }
      Reset(copy, g.from);
    }

    method ParseExpressionArg() returns (ok: bool)
      requires ReadableAll(Three(Lit("X"), N(Expression), Lit("E")))
      modifies this, out
      ensures ParsedAll(Three(Lit("X"), N(Expression), Lit("E")), old(Now()), ok)
      decreases Left(Now()), 8, 0
    {
      ghost var p := Three(Lit("X"), N(Expression), Lit("E"));
      hide EndSym, EndPat, Now, Ok, OkOut, Restore;
      PatEnd(p, Now());
      ok := ParseChar('X');
      if !ok { return; }
      PatEnd(p.tail, Now());
      ok := ParseExpression();
      if !ok { return; }
      PatEnd(p.tail.tail, Now());
      ok := ParseChar('E');
      if !ok { return; }
      PatEnd(Done, Now());
    }

    /** <expression> */
    method ParseExpression() returns (ok: bool)
      requires Readable(N(Expression))
      modifies this, out
      ensures Parsed(N(Expression), old(Now()), ok)
      decreases Left(Now()), 2, 2
    {
      hide EndSym, EndPat, EndFrom, Now, Ok, OkOut, CopyOf, Restore, Descends, Progress.Good;
      ghost var g := Begin(Expression, Now());
      Started(Expression, Now());
      TryOne(g, Now());
      ok := ParseTemplateParam();
      if ok { return; }
      g := g.Next(Now());
      TryOne(g, Now());
      ok := ParseExprPrimary();
      if ok { return; }
      g := g.Next(Now());
      var copy := Save();
      Try(g, Now());
      ok := ParseTrinary();
      if ok { return; }
      Reset(copy, g.from);
      g := g.Next(Now());
      ok := ParseExpressionFrom4(copy, g);
    }

    /** The alternatives of <expression> from number 4 on. */
    method ParseExpressionFrom4(copy: Copy, ghost start: Progress) returns (ok: bool)
      requires Ok(Now()) && copy == CopyOf(Now()) && start.Good(Now()) && EndFrom(start, Now()) != Faulted
      requires start == Progress(Expression, MoreExpressions().rest, Now(), MoreExpressions().first)
      modifies this, out
      ensures Ok(Now()) && EndFrom(start, old(Now())) == (if ok then Matched(Now()) else Failed(Now()))
      decreases Left(Now()), 2, 1, 1
    {
      hide Rule, EndSym, EndPat, EndFrom, Now, Ok, OkOut, CopyOf, Restore, Descends, Progress.Good;
      ghost var g := start;
      Try(g, Now());
      ok := ParseBinary();
      if ok { return; }
      Reset(copy, g.from);
      g := g.Next(Now());
      Try(g, Now());
      ok := ParseUnary();
      if ok { return; }
      Reset(copy, g.from);
      g := g.Next(Now());
      Try(g, Now());
      ok := ParseSizeof();
      if ok { return; }
      Reset(copy, g.from);
      g := g.Next(Now());
      ok := ParseExpressionFrom7(copy, g);
    }

    /** The alternatives of <expression> from number 7 on. */
    method ParseExpressionFrom7(copy: Copy, ghost start: Progress) returns (ok: bool)
      requires Ok(Now()) && copy == CopyOf(Now()) && start.Good(Now()) && EndFrom(start, Now()) != Faulted
      requires start == Progress(Expression, ScopeExpressions().rest, Now(), ScopeExpressions().first)
      modifies this, out
      ensures Ok(Now()) && EndFrom(start, old(Now())) == (if ok then Matched(Now()) else Failed(Now()))
      decreases Left(Now()), 2, 1, 0
    {
      hide Rule, EndSym, EndPat, EndFrom, Now, Ok, OkOut, CopyOf, Restore, Descends, Progress.Good;
      ghost var g := start;
      Try(g, Now());
      ok := ParseTemplateScope();
      if ok { return; }
      Reset(copy, g.from);
      g := g.Next(Now());
      Try(g, Now());
      ok := ParseScope();
      if ok { return; }
      Reset(copy, g.from);
    }

    method ParseTrinary() returns (ok: bool)
      requires ReadableAll(Four(N(OperatorName), N(Expression), N(Expression), N(Expression)))
      modifies this, out
      ensures ParsedAll(Four(N(OperatorName), N(Expression), N(Expression), N(Expression)), old(Now()), ok)
      decreases Left(Now()), 2, 0
    {
      ghost var p := Four(N(OperatorName), N(Expression), N(Expression), N(Expression));
      hide EndSym, EndPat, Now, Ok, OkOut, Restore;
      PatEnd(p, Now());
      ok := ParseOperatorName();
      if !ok { return; }
      PatEnd(p.tail, Now());
      ok := ParseExpression();
      if !ok { return; }
      PatEnd(p.tail.tail, Now());
      ok := ParseExpression();
      if !ok { return; }
      PatEnd(p.tail.tail.tail, Now());
      ok := ParseExpression();
      if !ok { return; }
      PatEnd(Done, Now());
    }

    method ParseBinary() returns (ok: bool)
      requires ReadableAll(Three(N(OperatorName), N(Expression), N(Expression)))
      modifies this, out
      ensures ParsedAll(Three(N(OperatorName), N(Expression), N(Expression)), old(Now()), ok)
      decreases Left(Now()), 2, 0
    {
      ghost var p := Three(N(OperatorName), N(Expression), N(Expression));
      hide EndSym, EndPat, Now, Ok, OkOut, Restore;
      PatEnd(p, Now());
      ok := ParseOperatorName();
      if !ok { return; }
      PatEnd(p.tail, Now());
      ok := ParseExpression();
      if !ok { return; }
      PatEnd(p.tail.tail, Now());
      ok := ParseExpression();
      if !ok { return; }
      PatEnd(Done, Now());
    }

    method ParseUnary() returns (ok: bool)
      requires ReadableAll(Two(N(OperatorName), N(Expression)))
      modifies this, out
      ensures ParsedAll(Two(N(OperatorName), N(Expression)), old(Now()), ok)
      decreases Left(Now()), 2, 0
    {
      ghost var p := Two(N(OperatorName), N(Expression));
      hide EndSym, EndPat, Now, Ok, OkOut, Restore;
      PatEnd(p, Now());
      ok := ParseOperatorName();
      if !ok { return; }
      PatEnd(p.tail, Now());
      ok := ParseExpression();
      if !ok { return; }
      PatEnd(Done, Now());
    }

    method ParseSizeof() returns (ok: bool)
      requires ReadableAll(Two(Lit("st"), N(Type)))
      modifies this, out
      ensures ParsedAll(Two(Lit("st"), N(Type)), old(Now()), ok)
      decreases Left(Now()), 2, 0
    {
      ghost var p := Two(Lit("st"), N(Type));
      hide EndSym, EndPat, Now, Ok, OkOut, Restore;
      PatEnd(p, Now());
      ok := ParseTwoChar("st");
      if !ok { return; }
      PatEnd(p.tail, Now());
      ok := ParseType();
      if !ok { return; }
      PatEnd(Done, Now());
    }

    method ParseTemplateScope() returns (ok: bool)
      requires ReadableAll(Four(Lit("sr"), N(Type), N(UnqualifiedName), N(TemplateArgs)))
      modifies this, out
      ensures ParsedAll(Four(Lit("sr"), N(Type), N(UnqualifiedName), N(TemplateArgs)), old(Now()), ok)
      decreases Left(Now()), 2, 0
    {
      ghost var p := Four(Lit("sr"), N(Type), N(UnqualifiedName), N(TemplateArgs));
      hide EndSym, EndPat, Now, Ok, OkOut, Restore;
      PatEnd(p, Now());
      ok := ParseTwoChar("sr");
      if !ok { return; }
      PatEnd(p.tail, Now());
      ok := ParseType();
      if !ok { return; }
      PatEnd(p.tail.tail, Now());
      ok := ParseUnqualifiedName();
      if !ok { return; }
      PatEnd(p.tail.tail.tail, Now());
      ok := ParseTemplateArgs();
      if !ok { return; }
      PatEnd(Done, Now());
    }

    method ParseScope() returns (ok: bool)
      requires ReadableAll(Three(Lit("sr"), N(Type), N(UnqualifiedName)))
      modifies this, out
      ensures ParsedAll(Three(Lit("sr"), N(Type), N(UnqualifiedName)), old(Now()), ok)
      decreases Left(Now()), 2, 0
    {
      ghost var p := Three(Lit("sr"), N(Type), N(UnqualifiedName));
      hide EndSym, EndPat, Now, Ok, OkOut, Restore;
      PatEnd(p, Now());
      ok := ParseTwoChar("sr");
      if !ok { return; }
      PatEnd(p.tail, Now());
      ok := ParseType();
      if !ok { return; }
      PatEnd(p.tail.tail, Now());
      ok := ParseUnqualifiedName();
      if !ok { return; }
      PatEnd(Done, Now());
    }

    /** <expr-primary> ::= L <type> <(value) number> E | L <type> <(value) float> E | L <mangled-name> E
                      ::= LZ <encoding> E */
    method ParseExprPrimary() returns (ok: bool)
      requires Readable(N(ExprPrimary))
      modifies this, out
      ensures Parsed(N(ExprPrimary), old(Now()), ok)
      decreases Left(Now()), 1, 2
    {
      hide EndSym, EndPat, EndFrom, Now, Ok, OkOut, CopyOf, Restore, Descends, Progress.Good;
      ghost var g := Begin(ExprPrimary, Now());
      Started(ExprPrimary, Now());
      var copy := Save();
      Try(g, Now());
      ok := ParseIntegerLiteral();
      if ok { return; }
      Reset(copy, g.from);
      g := g.Next(Now());
      Try(g, Now());
      ok := ParseFloatLiteral();
      if ok { return; }
      Reset(copy, g.from);
      g := g.Next(Now());
      Try(g, Now());
      ok := ParseMangledLiteral();
      if ok { return; }
      Reset(copy, g.from);
      g := g.Next(Now());
      Try(g, Now());
      ok := ParseEncodingLiteral();
      if ok { return; }
      Reset(copy, g.from);
    }

    method ParseIntegerLiteral() returns (ok: bool)
      requires ReadableAll(Four(Lit("L"), N(Type), NUMBER, Lit("E")))
      modifies this, out
      ensures ParsedAll(Four(Lit("L"), N(Type), NUMBER, Lit("E")), old(Now()), ok)
      decreases Left(Now()), 1, 0
    {
      ghost var p := Four(Lit("L"), N(Type), NUMBER, Lit("E"));
      hide EndSym, EndPat, Now, Ok, OkOut, Restore;
      PatEnd(p, Now());
      ok := ParseChar('L');
      if !ok { return; }
      PatEnd(p.tail, Now());
      ok := ParseType();
      if !ok { return; }
      PatEnd(p.tail.tail, Now());
      ok := ParseNumber();
      if !ok { return; }
      PatEnd(p.tail.tail.tail, Now());
      ok := ParseChar('E');
      if !ok { return; }
      PatEnd(Done, Now());
    }

    method ParseFloatLiteral() returns (ok: bool)
      requires ReadableAll(Four(Lit("L"), N(Type), Numeral(Hexadecimal), Lit("E")))
      modifies this, out
      ensures ParsedAll(Four(Lit("L"), N(Type), Numeral(Hexadecimal), Lit("E")), old(Now()), ok)
      decreases Left(Now()), 1, 0
    {
      ghost var p := Four(Lit("L"), N(Type), Numeral(Hexadecimal), Lit("E"));
      hide EndSym, EndPat, Now, Ok, OkOut, Restore;
      PatEnd(p, Now());
      ok := ParseChar('L');
      if !ok { return; }
      PatEnd(p.tail, Now());
      ok := ParseType();
      if !ok { return; }
      PatEnd(p.tail.tail, Now());
      ok := ParseFloatNumber();
      if !ok { return; }
      PatEnd(p.tail.tail.tail, Now());
      ok := ParseChar('E');
      if !ok { return; }
      PatEnd(Done, Now());
    }

    method ParseMangledLiteral() returns (ok: bool)
      requires ReadableAll(Three(Lit("L"), N(MangledName), Lit("E")))
      modifies this, out
      ensures ParsedAll(Three(Lit("L"), N(MangledName), Lit("E")), old(Now()), ok)
      decreases Left(Now()), 1, 0
    {
      ghost var p := Three(Lit("L"), N(MangledName), Lit("E"));
      hide EndSym, EndPat, Now, Ok, OkOut, Restore;
      PatEnd(p, Now());
      ok := ParseChar('L');
      if !ok { return; }
      PatEnd(p.tail, Now());
      ok := ParseMangledName();
      if !ok { return; }
      PatEnd(p.tail.tail, Now());
      ok := ParseChar('E');
      if !ok { return; }
      PatEnd(Done, Now());
    }

    method ParseEncodingLiteral() returns (ok: bool)
      requires ReadableAll(Three(Lit("LZ"), N(Encoding), Lit("E")))
      modifies this, out
      ensures ParsedAll(Three(Lit("LZ"), N(Encoding), Lit("E")), old(Now()), ok)
      decreases Left(Now()), 1, 0
    {
      ghost var p := Three(Lit("LZ"), N(Encoding), Lit("E"));
      hide EndSym, EndPat, Now, Ok, OkOut, Restore;
      PatEnd(p, Now());
      ok := ParseTwoChar("LZ");
      if !ok { return; }
      PatEnd(p.tail, Now());
      ok := ParseEncoding();
      if !ok { return; }
      PatEnd(p.tail.tail, Now());
      ok := ParseChar('E');
      if !ok { return; }
      PatEnd(Done, Now());
    }

    /** <local-name> ::= Z <(function) encoding> E <(entity) name> [<discriminator>]
                    ::= Z <(function) encoding> E s [<discriminator>] */
    method ParseLocalName() returns (ok: bool)
      requires Readable(N(LocalName))
      modifies this, out
      ensures Parsed(N(LocalName), old(Now()), ok)
      decreases Left(Now()), 1, 2
    {
      hide EndSym, EndPat, EndFrom, Now, Ok, OkOut, CopyOf, Restore, Descends, Progress.Good;
      ghost var g := Begin(LocalName, Now());
      Started(LocalName, Now());
      var copy := Save();
      Try(g, Now());
      ok := ParseLocalEntity();
      if ok { return; }
      Reset(copy, g.from);
      g := g.Next(Now());
      Try(g, Now());
      ok := ParseLocalString();
      if ok { return; }
      Reset(copy, g.from);
    }

    method ParseLocalEntity() returns (ok: bool)
      requires ReadableAll(
        Then(Lit("Z"), Then(N(Encoding), Four(Lit("E"), Emit("::"), N(Name), Opt(N(Discriminator))))))
      modifies this, out
      ensures ParsedAll(Then(Lit("Z"), Then(N(Encoding), Four(Lit("E"), Emit("::"), N(Name), Opt(N(Discriminator))))),
                     old(Now()), ok)
      decreases Left(Now()), 1, 0
    {
      ghost var p := Then(Lit("Z"), Then(N(Encoding), Four(Lit("E"), Emit("::"), N(Name), Opt(N(Discriminator)))));
      hide EndSym, EndPat, Now, Ok, OkOut, Restore;
      PatEnd(p, Now());
      ok := ParseChar('Z');
      if !ok { return; }
      PatEnd(p.tail, Now());
      ok := ParseEncoding();
      if !ok { return; }
      PatEnd(p.tail.tail, Now());
      ok := ParseChar('E');
      if !ok { return; }
      PatEnd(p.tail.tail.tail, Now());
      MaybeAppend("::");
      PatEnd(p.tail.tail.tail.tail, Now());
      ok := ParseName();
      if !ok { return; }
      PatEnd(p.tail.tail.tail.tail.tail, Now());
      OptEnd(N(Discriminator), Now());
      var _ := ParseDiscriminator();
      ok := true;
      PatEnd(Done, Now());
    }

    method ParseLocalString() returns (ok: bool)
      requires ReadableAll(Four(Lit("Z"), N(Encoding), Lit("Es"), Opt(N(Discriminator))))
      modifies this, out
      ensures ParsedAll(Four(Lit("Z"), N(Encoding), Lit("Es"), Opt(N(Discriminator))), old(Now()), ok)
      decreases Left(Now()), 1, 0
    {
      ghost var p := Four(Lit("Z"), N(Encoding), Lit("Es"), Opt(N(Discriminator)));
      hide EndSym, EndPat, Now, Ok, OkOut, Restore;
      PatEnd(p, Now());
      ok := ParseChar('Z');
      if !ok { return; }
      PatEnd(p.tail, Now());
      ok := ParseEncoding();
      if !ok { return; }
      PatEnd(p.tail.tail, Now());
      ok := ParseTwoChar("Es");
      if !ok { return; }
      PatEnd(p.tail.tail.tail, Now());
      OptEnd(N(Discriminator), Now());
      var _ := ParseDiscriminator();
      ok := true;
      PatEnd(Done, Now());
    }

    /** <discriminator> ::= _ <(non-negative) number> */
    method ParseDiscriminator() returns (ok: bool)
      requires Readable(N(Discriminator))
      modifies this, out
      ensures Parsed(N(Discriminator), old(Now()), ok)
      decreases Left(Now()), 1, 2
    {
      hide EndSym, EndPat, EndFrom, Now, Ok, OkOut, CopyOf, Restore, Descends, Progress.Good;
      ghost var g := Begin(Discriminator, Now());
      Started(Discriminator, Now());
      var copy := Save();
      Try(g, Now());
      ok := ParseDiscriminatorNumber();
      if ok { return; }
      Reset(copy, g.from);
    }

    method ParseDiscriminatorNumber() returns (ok: bool)
      requires ReadableAll(Two(Lit("_"), NUMBER))
      modifies this, out
      ensures ParsedAll(Two(Lit("_"), NUMBER), old(Now()), ok)
      decreases Left(Now()), 1, 0
    {
      ghost var p := Two(Lit("_"), NUMBER);
      hide EndSym, EndPat, Now, Ok, OkOut, Restore;
      PatEnd(p, Now());
      ok := ParseChar('_');
      if !ok { return; }
      PatEnd(p.tail, Now());
      ok := ParseNumber();
      if !ok { return; }
      PatEnd(Done, Now());
    }

    /** Append the version suffix, if there is one. */
    method AppendVersionSuffix() returns (ok: bool)
      requires Valid()
      modifies this, out
      ensures ok && Parsed(Suffix, old(Now()), true)
    {
      TerminalEnd(Suffix, Now());
      hide EndSym, Print;
      assert mangledCur < |mangled| ==> mangled[mangledCur..mangledCur + 1] == [mangled[mangledCur]];
      if mangledCur < |mangled| && mangled[mangledCur] == '@' {
        MaybeAppend(mangled[mangledCur..]);
        mangledCur := |mangled|;
      }
      ok := true;
    }

    /** <nested-name> ::= N [<CV-qualifiers>] <prefix> E */
    method ParseNestedName() returns (ok: bool)
      requires Readable(N(NestedName))
      modifies this, out
      ensures Parsed(N(NestedName), old(Now()), ok)
      decreases Left(Now()), 1, 2
    {
      hide EndSym, EndPat, EndFrom, Now, Ok, OkOut, CopyOf, Restore, Descends, Progress.Good;
      ghost var g := Begin(NestedName, Now());
      Started(NestedName, Now());
      var copy := Save();
      Try(g, Now());
      ok := ParseNested();
      if ok { return; }
      Reset(copy, g.from);
    }

    method ParseNested() returns (ok: bool)
      requires ReadableAll(Four(Lit("N"), Opt(CVQualifiers), Prefix, Lit("E")))
      modifies this, out
      ensures ParsedAll(Four(Lit("N"), Opt(CVQualifiers), Prefix, Lit("E")), old(Now()), ok)
      decreases Left(Now()), 1, 0
    {
      ghost var p := Four(Lit("N"), Opt(CVQualifiers), Prefix, Lit("E"));
      hide EndSym, EndPat, EndPrefix, Now, Ok, OkOut, Restore, Skip;
      PatEnd(p, Now());
      var level := NestLevel();
      ok := ParseChar('N');
      if !ok { return; }
      ghost var s := Now();
      ModesBack(Lit("N"), old(Now()));
      PatEnd(p.tail, s);
      QualifiersEnd(s);
      EnterNestedName();
      QualifiersAtAnyLevel(s, 0);
      OptEnd(CVQualifiers, Now());
      var _ := ParseCVQualifiers();
      ghost var t := Now().(nest := s.nest);
      PatEnd(p.tail.tail, t);
      PrefixSymEnd(t);
      var _ := ParsePrefix();
      LeaveNestedName(level);
      PatEnd(p.tail.tail.tail, Now());
      ok := ParseChar('E');
      if !ok { return; }
      PatEnd(Done, Now());
    }

    method NestLevel() returns (level: int)
      ensures level == Now().nest
    {
      level := nestLevel;
    }

    /** <prefix>, merged with <template-prefix>; leaves the nest level raised. */
    method ParsePrefix() returns (ok: bool)
      requires Valid() && EndPrefix(false, Now()) != Faulted
      modifies this, out
      ensures ok && Valid() && EndPrefix(false, old(Now())) == Matched(Now())
      decreases Left(Now()), 4, 3
    {
      hide EndSym, EndPrefix, Now, OkOut, Print;
      ghost var v := Now();
      var hasSomething := false;
      while true
        invariant Valid() && Now().src == v.src && v.cur <= Now().cur
        invariant EndPrefix(hasSomething, Now()) == EndPrefix(false, v)
        decreases Left(Now())
      {
        PrefixEnd(hasSomething, Now());
        MaybeAppendSeparator();
        ok := ParsePrefixItem();
        if ok {
          hasSomething := true;
          MaybeIncreaseNestLevel();
          continue;
        }
        MaybeCancelLastSeparator();
        if hasSomething {
          ok := ParseTemplateArgs();
          if ok {
            ok := ParsePrefix();
            return;
          }
        }
        break;
      }
      ok := true;
    }

    /** <operator-name> ::= nw, and other two letters cases | cv <type> | v <digit> <source-name> */
    method ParseOperatorName() returns (ok: bool)
      requires Readable(N(OperatorName))
      modifies this, out
      ensures Parsed(N(OperatorName), old(Now()), ok)
      decreases Left(Now()), 1, 2
    {
      hide EndSym, EndPat, EndFrom, Now, Ok, OkOut, CopyOf, Restore, Descends, Progress.Good;
      var left := RemainingLength();
      if left < 2 {
        ShortOperatorName(Now());
        return false;
      }
      ghost var g := Begin(OperatorName, Now());
      Started(OperatorName, Now());
      var copy := Save();
      Try(g, Now());
      ok := ParseConversion();
      if ok { return; }
      Reset(copy, g.from);
      g := g.Next(Now());
      Try(g, Now());
      ok := ParseVendorOperator();
      if ok { return; }
      Reset(copy, g.from);
      g := g.Next(Now());
      TryOne(g, Now());
      ok := ParseOperatorAbbreviation();
    }

    method ParseConversion() returns (ok: bool)
      requires ReadableAll(Three(Lit("cv"), Emit("operator "), Nested(N(Type))))
      modifies this, out
      ensures ParsedAll(Three(Lit("cv"), Emit("operator "), Nested(N(Type))), old(Now()), ok)
      decreases Left(Now()), 1, 0
    {
      ghost var p := Three(Lit("cv"), Emit("operator "), Nested(N(Type)));
      hide EndSym, EndPat, Now, Ok, OkOut, Restore;
      PatEnd(p, Now());
      ok := ParseTwoChar("cv");
      if !ok { return; }
      PatEnd(p.tail, Now());
      MaybeAppend("operator ");
      PatEnd(p.tail.tail, Now());
      NestedEnd(N(Type), Now());
      var level := NestLevel();
      EnterNestedName();
      ok := ParseType();
      if !ok { return; }
      LeaveNestedName(level);
      PatEnd(Done, Now());
    }

    method ParseVendorOperator() returns (ok: bool)
      requires ReadableAll(Three(Lit("v"), Class("0123456789"), N(SourceName)))
      modifies this, out
      ensures ParsedAll(Three(Lit("v"), Class("0123456789"), N(SourceName)), old(Now()), ok)
      decreases Left(Now()), 1, 0
    {
      ghost var p := Three(Lit("v"), Class("0123456789"), N(SourceName));
      hide EndSym, EndPat, Now, Ok, OkOut, Restore;
      PatEnd(p, Now());
      ok := ParseChar('v');
      if !ok { return; }
      PatEnd(p.tail, Now());
      ok := ParseCharClass("0123456789");
      if !ok { return; }
      PatEnd(p.tail.tail, Now());
      ok := ParseSourceName();
      if !ok { return; }
      PatEnd(Done, Now());
    }

    /** Linear search in a list of abbreviations. */
    static method Search(list: seq<Abbreviation>, key: Key) returns (p: nat)
      ensures p == Find(list, 0, key)
    {
      p := 0;
      while p < |list|
        invariant p <= |list| && Find(list, 0, key) == Find(list, p, key)
      {
        if Hits(list[p], key) { return; }
        p := p + 1;
      }
    }

    method AppendOperator(name: string)
      requires Valid()
      modifies this, out
      ensures Valid() && Now() == OperatorText(name, old(Now()))
    {
      hide EndSym, Print;
      MaybeAppend("operator");
      if name != "" && IsLower(name[0]) { MaybeAppend(" "); }
      MaybeAppend(name);
    }

    /** The other operators, from the list. */
    method ParseOperatorAbbreviation() returns (ok: bool)
      requires Valid()
      modifies this, out
      ensures Parsed(OperatorTable, old(Now()), ok)
    {
      OperatorTableEnd(Now());
      hide EndSym, OperatorText, Find, OPERATORS;
      if |mangled| - mangledCur < 2 || !IsLower(mangled[mangledCur]) || !IsAlpha(mangled[mangledCur + 1]) {
        return false;
      }
      var p := Search(OPERATORS, Both(mangled[mangledCur], mangled[mangledCur + 1]));
      ok := p < |OPERATORS|;
      if ok {
        AppendOperator(OPERATORS[p].long);
        mangledCur := mangledCur + 2;
      }
    }

    /** <ctor-dtor-name> ::= C1 | C2 | C3 | D0 | D1 | D2 */
    method ParseCtorDtorName() returns (ok: bool)
      requires Readable(N(CtorDtorName))
      modifies this, out
      ensures Parsed(N(CtorDtorName), old(Now()), ok)
      decreases Left(Now()), 1, 2
    {
      hide EndSym, EndPat, EndFrom, Now, Ok, OkOut, CopyOf, Restore, Descends, Progress.Good;
      ghost var g := Begin(CtorDtorName, Now());
      Started(CtorDtorName, Now());
      var copy := Save();
      Try(g, Now());
      ok := ParseConstructor();
      if ok { return; }
      Reset(copy, g.from);
      g := g.Next(Now());
      Try(g, Now());
      ok := ParseDestructor();
      if ok { return; }
      Reset(copy, g.from);
    }

    method ParseConstructor() returns (ok: bool)
      requires ReadableAll(Three(Lit("C"), Class("123"), EmitPrevious))
      modifies this, out
      ensures ParsedAll(Three(Lit("C"), Class("123"), EmitPrevious), old(Now()), ok)
    {
      ghost var p := Three(Lit("C"), Class("123"), EmitPrevious);
      hide EndSym, EndPat, Now, Ok, OkOut, Restore;
      PatEnd(p, Now());
      ok := ParseChar('C');
      if !ok { return; }
      PatEnd(p.tail, Now());
      ok := ParseCharClass("123");
      if !ok { return; }
      PatEnd(p.tail.tail, Now());
      TerminalEnd(EmitPrevious, Now());
      var name, length := Previous();
      MaybeAppendPrevious(name, length);
      PatEnd(Done, Now());
    }

    method ParseDestructor() returns (ok: bool)
      requires ReadableAll(Four(Lit("D"), Class("012"), Emit("~"), EmitPrevious))
      modifies this, out
      ensures ParsedAll(Four(Lit("D"), Class("012"), Emit("~"), EmitPrevious), old(Now()), ok)
    {
      ghost var p := Four(Lit("D"), Class("012"), Emit("~"), EmitPrevious);
      hide EndSym, EndPat, Now, Ok, OkOut, Restore;
      PatEnd(p, Now());
      ok := ParseChar('D');
      if !ok { return; }
      PatEnd(p.tail, Now());
      ok := ParseCharClass("012");
      if !ok { return; }
      PatEnd(p.tail.tail, Now());
      TildeKeepsPrevious(Now());
      var name, length := Previous();
      MaybeAppend("~");
      PatEnd(p.tail.tail.tail, Now());
      TerminalEnd(EmitPrevious, Now());
      MaybeAppendPrevious(name, length);
      PatEnd(Done, Now());
    }

    method Previous() returns (name: int, length: int)
      ensures name == Now().out.prevName && length == Now().out.prevLen
    {
      name, length := prevName, prevNameLength;
    }

    /** <builtin-type> ::= v, etc. | u <source-name> */
    method ParseBuiltinType() returns (ok: bool)
      requires Readable(N(BuiltinType))
      modifies this, out
      ensures Parsed(N(BuiltinType), old(Now()), ok)
      decreases Left(Now()), 1, 2
    {
      hide EndSym, EndFrom, Now, Ok, OkOut, CopyOf, Restore, Descends, Progress.Good;
      ghost var g := Begin(BuiltinType, Now());
      Started(BuiltinType, Now());
      Step(g, Now());
      ok := ParseBuiltinAbbreviation();
      if ok { Complete(g.Tail(), Now()); return; }
      g := g.Next(Now());
      var copy := Save();
      Step(g, Now());
      ok := ParseChar('u');
      if ok {
        g := g.Tail();
        Step(g, Now());
        ok := ParseSourceName();
        if ok { Complete(g.Tail(), Now()); return; }
      }
      Reset(copy, g.from);
    }

    /** The builtin types of the list. At the end the source reads the terminating NUL, which starts no entry. */
    method ParseBuiltinAbbreviation() returns (ok: bool)
      requires Valid()
      modifies this, out
      ensures Parsed(BuiltinTable, old(Now()), ok)
    {
      TerminalEnd(BuiltinTable, Now());
      hide EndSym, Print, Find, BUILTINS;
      if mangledCur == |mangled| { return false; }
      var p := Search(BUILTINS, First(mangled[mangledCur]));
      ok := p < |BUILTINS|;
      if ok {
        MaybeAppend(BUILTINS[p].long);
        mangledCur := mangledCur + 1;
      }
    }

    /** One or more of n. */
    method OneOrMore(n: Nonterminal) returns (ok: bool)
      requires (n == Type || n == TemplateArg) && Readable(Plus(n))
      modifies this, out
      ensures Parsed(Plus(n), old(Now()), ok)
      decreases Left(Now()), 9, 0
    {
      hide EndSym, EndStar, Now, OkOut;
      ghost var v := Now();
      PlusEnd(n, v);
      if n == Type { ok := ParseType(); } else { ok := ParseTemplateArg(); }
      if ok {
        var more := true;
        while more
          invariant Valid() && Now().src == v.src && v.cur < Now().cur
          invariant EndSym(Plus(n), v) == if more then EndStar(n, Now()) else Matched(Now())
          decreases Left(Now()), more
        {
          StarEnd(n, Now());
          if n == Type { more := ParseType(); } else { more := ParseTemplateArg(); }
        }
      }
    }

    /** <bare-function-type> ::= <(signature) type>+ */
    method ParseBareFunctionType() returns (ok: bool)
      requires Readable(N(BareFunctionType))
      modifies this, out
      ensures Parsed(N(BareFunctionType), old(Now()), ok)
      decreases Left(Now()), 10, 2
    {
      hide EndSym, EndPat, EndFrom, Now, Ok, OkOut, CopyOf, Restore, Descends, Progress.Good;
      ghost var g := Begin(BareFunctionType, Now());
      Started(BareFunctionType, Now());
      var copy := Save();
      Try(g, Now());
      ok := ParseSignature();
      if ok { return; }
      Reset(copy, g.from);
    }

    method ParseSignature() returns (ok: bool)
      requires ReadableAll(Two(Quiet(One(Plus(Type))), Emit("()")))
      modifies this, out
      ensures ParsedAll(Two(Quiet(One(Plus(Type))), Emit("()")), old(Now()), ok)
      decreases Left(Now()), 10, 0
    {
      ghost var p := Two(Quiet(One(Plus(Type))), Emit("()"));
      hide EndSym, EndPat, Now, Ok, OkOut, Restore;
      PatEnd(p, Now());
      QuietOne(Plus(Type), Now());
      var append := Appending();
      DisableAppend();
      ok := OneOrMore(Type);
      if !ok { return; }
      RestoreAppend(append);
      PatEnd(p.tail, Now());
      MaybeAppend("()");
      PatEnd(Done, Now());
    }

    /** <template-args> ::= I <template-arg>+ E */
    method ParseTemplateArgs() returns (ok: bool)
      requires Readable(N(TemplateArgs))
      modifies this, out
      ensures Parsed(N(TemplateArgs), old(Now()), ok)
      decreases Left(Now()), 1, 2
    {
      hide EndSym, EndPat, EndFrom, Now, Ok, OkOut, CopyOf, Restore, Descends, Progress.Good;
      ghost var g := Begin(TemplateArgs, Now());
      Started(TemplateArgs, Now());
      var copy := Save();
      Try(g, Now());
      ok := ParseArguments();
      if ok { return; }
      Reset(copy, g.from);
    }

    method ParseArguments() returns (ok: bool)
      requires ReadableAll(Two(Quiet(Three(Lit("I"), Plus(TemplateArg), Lit("E"))), Emit("<>")))
      modifies this, out
      ensures ParsedAll(Two(Quiet(Three(Lit("I"), Plus(TemplateArg), Lit("E"))), Emit("<>")), old(Now()), ok)
      decreases Left(Now()), 1, 0
    {
      ghost var p := Two(Quiet(Three(Lit("I"), Plus(TemplateArg), Lit("E"))), Emit("<>"));
      ghost var q := p.head.p;
      hide EndSym, EndPat, Now, Ok, OkOut, Restore;
      PatEnd(p, Now());
      QuietEnd(q, Now());
      var append := Appending();
      DisableAppend();
      PatEnd(q, Now());
      ok := ParseChar('I');
      if !ok { return; }
      PatEnd(q.tail, Now());
      ok := OneOrMore(TemplateArg);
      if !ok { return; }
      PatEnd(q.tail.tail, Now());
      ok := ParseChar('E');
      if !ok { return; }
      PatEnd(Done, Now());
      RestoreAppend(append);
      PatEnd(p.tail, Now());
      MaybeAppend("<>");
      PatEnd(Done, Now());
    }

    /** <substitution> ::= S_ | S <seq-id> _ | St, etc. */
    method ParseSubstitution() returns (ok: bool)
      requires Readable(N(Substitution))
      modifies this, out
      ensures Parsed(N(Substitution), old(Now()), ok)
      decreases Left(Now()), 1, 2
    {
      hide EndSym, EndPat, EndFrom, Now, Ok, OkOut, CopyOf, Restore, Descends, Progress.Good;
      ghost var g := Begin(Substitution, Now());
      Started(Substitution, Now());
      Step(g, Now());
      ok := ParseTwoChar("S_");
      if ok {
        g := g.Tail();
        Step(g, Now());
        MaybeAppend("?");
        Complete(g.Tail(), Now());
        return;
      }
      g := g.Next(Now());
      var copy := Save();
      Try(g, Now());
      ok := ParseNumberedSubstitution();
      if ok { return; }
      Reset(copy, g.from);
      g := g.Next(Now());
      Try(g, Now());
      ok := ParseStandardSubstitution();
      if ok { return; }
      Reset(copy, g.from);
    }

    method ParseNumberedSubstitution() returns (ok: bool)
      requires ReadableAll(Four(Lit("S"), Numeral(Base36), Lit("_"), Emit("?")))
      modifies this, out
      ensures ParsedAll(Four(Lit("S"), Numeral(Base36), Lit("_"), Emit("?")), old(Now()), ok)
      decreases Left(Now()), 1, 0
    {
      ghost var p := Four(Lit("S"), Numeral(Base36), Lit("_"), Emit("?"));
      hide EndSym, EndPat, Now, Ok, OkOut, Restore;
      PatEnd(p, Now());
      ok := ParseChar('S');
      if !ok { return; }
      PatEnd(p.tail, Now());
      ok := ParseSeqId();
      if !ok { return; }
      PatEnd(p.tail.tail, Now());
      ok := ParseChar('_');
      if !ok { return; }
      PatEnd(p.tail.tail.tail, Now());
      MaybeAppend("?");
      ok := true;
      PatEnd(Done, Now());
    }

    method ParseStandardSubstitution() returns (ok: bool)
      requires ReadableAll(Two(Lit("S"), SubstitutionTable))
      modifies this, out
      ensures ParsedAll(Two(Lit("S"), SubstitutionTable), old(Now()), ok)
      decreases Left(Now()), 1, 0
    {
      ghost var p := Two(Lit("S"), SubstitutionTable);
      hide EndSym, EndPat, Now, Ok, OkOut, Restore;
      PatEnd(p, Now());
      ok := ParseChar('S');
      if !ok { return; }
      PatEnd(p.tail, Now());
      ok := ParseSubstitutionAbbreviation();
      if !ok { return; }
      PatEnd(Done, Now());
    }

    /** The abbreviations of the list, such as "St" for "std". */
    method ParseSubstitutionAbbreviation() returns (ok: bool)
      requires Valid()
      modifies this, out
      ensures Parsed(SubstitutionTable, old(Now()), ok)
    {
      hide EndSym, Print, Find, SUBSTITUTIONS;
      TerminalEnd(SubstitutionTable, Now());
      if mangledCur == |mangled| { return false; }
      var p := Search(SUBSTITUTIONS, Second(mangled[mangledCur]));
      ok := p < |SUBSTITUTIONS|;
      if ok {
        MaybeAppend("std");
        if SUBSTITUTIONS[p].long != "" {
          MaybeAppend("::");
          MaybeAppend(SUBSTITUTIONS[p].long);
        }
        mangledCur := mangledCur + 1;
      }
    }

    /** <CV-qualifiers> ::= [r] [V] [K], not empty */
    method ParseCVQualifiers() returns (ok: bool)
      requires Valid()
      modifies this
      ensures Parsed(CVQualifiers, old(Now()), ok)
    {
      hide EndSym, Now, Skip;
      TerminalEnd(CVQualifiers, Now());
      SkipEnd(Now(), 'r');
      var r := ParseChar('r');
      SkipEnd(Now(), 'V');
      var v := ParseChar('V');
      SkipEnd(Now(), 'K');
      var k := ParseChar('K');
      ok := r || v || k;
    }

    /** <template-param> ::= T_ | T <parameter-2 non-negative number> _ */
    method ParseTemplateParam() returns (ok: bool)
      requires Readable(N(TemplateParam))
      modifies this, out
      ensures Parsed(N(TemplateParam), old(Now()), ok)
      decreases Left(Now()), 1, 2
    {
      hide EndSym, EndPat, EndFrom, Now, Ok, OkOut, CopyOf, Restore, Descends, Progress.Good;
      ghost var g := Begin(TemplateParam, Now());
      Started(TemplateParam, Now());
      Step(g, Now());
      ok := ParseTwoChar("T_");
      if ok {
        g := g.Tail();
        Step(g, Now());
        MaybeAppend("?");
        Complete(g.Tail(), Now());
        return;
      }
      g := g.Next(Now());
      var copy := Save();
      Try(g, Now());
      ok := ParseNumberedParam();
      if ok { return; }
      Reset(copy, g.from);
    }

    method ParseNumberedParam() returns (ok: bool)
      requires ReadableAll(Four(Lit("T"), NUMBER, Lit("_"), Emit("?")))
      modifies this, out
      ensures ParsedAll(Four(Lit("T"), NUMBER, Lit("_"), Emit("?")), old(Now()), ok)
      decreases Left(Now()), 1, 0
    {
      ghost var p := Four(Lit("T"), NUMBER, Lit("_"), Emit("?"));
      hide EndSym, EndPat, Now, Ok, OkOut, Restore;
      PatEnd(p, Now());
      ok := ParseChar('T');
      if !ok { return; }
      PatEnd(p.tail, Now());
      ok := ParseNumber();
      if !ok { return; }
      PatEnd(p.tail.tail, Now());
      ok := ParseChar('_');
      if !ok { return; }
      PatEnd(p.tail.tail.tail, Now());
      MaybeAppend("?");
      ok := true;
      PatEnd(Done, Now());
    }
  }

  /** The parse of a mangled name, which no buffer has a part in. */
  function Parse(mangled: string): Res {
    RunNt(MangledName, Initial(mangled, ['\0']))
  }

  /** The parse ended in a match of everything. */
  predicate Accepted(mangled: string) {
    Parse(mangled).Match? && Parse(mangled).st.cur == |mangled|
  }

  /** Without signed or oversized numbers the parse is free of faults. */
  lemma TameNamesParse(mangled: string)
    requires TameNumbers(mangled)
    ensures !Parse(mangled).Fault?
  {
    NtTame(MangledName, Initial(mangled, ['\0']));
  }

  /** An accepted name is derivable from <mangled-name>. */
  lemma AcceptedIsDerivable(mangled: string)
    requires Accepted(mangled)
    ensures DerivesSym(N(MangledName), Parse(mangled).tree) && Yield(Parse(mangled).tree) == mangled
  {
    NtSound(MangledName, Initial(mangled, ['\0']));
    assert mangled[0..|mangled|] == mangled;
  }

  /** Where no source name and no nested name is empty, a NUL stands at the cursor, in a buffer of any size that
      has not overflowed. */
  lemma TextIsTerminated(mangled: string, buf: seq<char>)
    requires buf != []
    ensures var r := RunNt(MangledName, Initial(mangled, buf));
            r.Match? && !r.st.out.overflowed && Named(N(MangledName), r.tree) ==> r.st.out.buf[r.st.out.cur] == '\0'
  {
    var s := Initial(mangled, buf);
    NtSound(MangledName, s);
    NtEnds(MangledName, s);
    var r := RunNt(MangledName, s);
    hide RunNt, DerivesSym, Named, Speaks;
    if r.Match? && Named(N(MangledName), r.tree) { NamedSpeaks(N(MangledName), r.tree); }
  }

  /** What an accepted name is translated to. */
  function Demangled(mangled: string): string
    requires Accepted(mangled)
  {
    Spell(N(MangledName), Parse(mangled).tree, Ctx("", "")).text
  }

  /** Every name that a compiler mangles is accepted, and shown as itself. */
  lemma SymbolsAreShown(e: Encoded, version: string)
    requires GoodEncoded(e) && IsVersion(version)
    ensures var m := Mangled(e, version);
            !Parse(m).Fault? && Accepted(m) && Demangled(m) == EncodedText(e) + version
  {
    hide RunNt, Spell, Mangled, EncodedText, GoodEncoded;
    SymbolIsShown(e, version, ['\0']);
  }

  /** The entry point. The answer is yes exactly for an accepted name whose text fits, and a buffer of
      (n + 1)(n + 24) characters fits every text. A NUL follows it if no name in it is empty. */
  method Demangle(mangled: string, out: array<char>) returns (ok: bool)
    requires out.Length >= 1 && !Parse(mangled).Fault?
    modifies out
    ensures ok ==> Accepted(mangled)
    ensures var r := RunNt(MangledName, Initial(mangled, old(out[..])));
            r.Match? == Parse(mangled).Match? && (r.Match? ==> r.tree == Parse(mangled).tree)
            && !r.Fault? && out[..] == r.st.out.buf && ok == (Accepted(mangled) && !r.st.out.overflowed)
            && (ok && Named(N(MangledName), r.tree) ==> out[r.st.out.cur] == '\0')
    ensures out.Length >= (|mangled| + 1) * (|mangled| + 24) ==>
              ok == Accepted(mangled)
              && (ok ==> var text := Demangled(mangled);
                         text <= out[..]
                         && (Named(N(MangledName), Parse(mangled).tree) ==> |text| < out.Length && out[|text|] == '\0'))
    ensures out.Length >= (|mangled| + 1) * (|mangled| + 24) ==>
              forall e, version :: GoodEncoded(e) && IsVersion(version) && Mangled(e, version) == mangled ==>
                ok && EncodedText(e) + version <= out[..]
  {
    ghost var v := Initial(mangled, out[..]);
    NtAlike(MangledName, v, Initial(mangled, ['\0']));
    NtMatches(v);
    TextIsTerminated(mangled, out[..]);
    hide RunNt, EndSym, Spell, Named, Mangled, EncodedText, GoodEncoded;
    forall e, version | GoodEncoded(e) && IsVersion(version) && Mangled(e, version) == mangled
      ensures Accepted(mangled) && Demangled(mangled) == EncodedText(e) + version
    {
      SymbolsAreShown(e, version);
    }
    if out.Length >= (|mangled| + 1) * (|mangled| + 24) { DemangledText(mangled, out[..]); }
    var state := new State(mangled, out);
    ok := state.ParseMangledName();
    var left := state.RemainingLength();
    ok := ok && !state.overflowed && left == 0;
  }

  lemma SourceNameEnds(s: St)
    requires Ok(s)
    ensures EndSym(N(SourceName), s) != Faulted ==>
              match SourceNameStep(s)
              case Ends(t) => EndSym(N(SourceName), s) == Matched(t) && Ok(t)
              case Fails => EndSym(N(SourceName), s) == Failed(s)
  {
    NtSym(SourceName, s);
    hide RunNt, SourceNameStep;
    if !RunNt(SourceName, s).Fault? { SourceNameAgrees(s); }
  }

  lemma NtMatches(s: St)
    requires Ok(s)
    ensures EndSym(N(MangledName), s) == EndOf(RunNt(MangledName, s))
  {
  }
}
