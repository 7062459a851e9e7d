# Verified models of a scene-graph project and its vendored libraries

This project models, in Dafny, the parts of the repository that compute rather than call OpenGL, and proves what they
are meant to do. All numbers that the source keeps in `float` are exact reals here. Each file is one component.

**The C++ demangler** (`Demangle*.dfy`). The demangler of glog implements section 5.1 of the Itanium C++ ABI as about
forty mutually recursive functions over one mutable state. `DemangleGrammar` writes the BNF of its comments down as a
table of rules, with the printing actions as symbols. `DemangleSpec` is an interpreter of such rules on state values:
ordered alternatives, greedy repetition, restoring on failure. `Demangle` contains the class with the parsing
functions themselves; each is proved to end exactly as the interpreter does. Where the source joins calls by `&&` in
one line, the line is a method of its own (`ParseTypeData`, `ParseThunk` and so on), and long lists of alternatives go
on in another method (`ParseTypeFrom4` and so on); these promise the same for their part of the rule. About the
interpreter it is proved that it terminates (`DemangleGrammar`), that failures restore the state and printing modes
are bracketed (`DemangleSpec`), that what is read is derivable (`DemangleDerivation`), that reading does not depend on
the output (`DemangleControl`), where a source-name length goes wrong and what the code does there (`DemangleLength`),
what one character of lookahead excludes (`DemangleLookahead`), what is printed (`DemangleOutput`), how large a buffer
is always enough (`DemangleRoom`), what stands in a buffer of any size (`DemangleBuffer`, `DemangleUnterminated`) and
which part of it is read back (`DemanglePrevious`). `DemangleProgress` describes how far a function has got with a
rule.

The round trip does without the grammar in what it states. `DemangleNames` has the names themselves: functions, data,
types, components of qualified names, template arguments, thunks; how the ABI mangles them, and what a reader wants to
see of them. `SymbolsAreShown` says that the demangler accepts the symbol of every such name and shows the name. The
proof goes over a run with printing off, which finds the same derivation: `DemangleReading` reads symbol by symbol,
`DemangleRoundTrip` goes along the names and excludes at every choice the alternatives that the code tries first,
`DemangleShown` spells the derivation out. `DemangleCases` has the constructors and destructors of all classes as an
instance, and the first cases of the unit test.

**Geometry** (`Matrix44.dfy`, `Vector3.dfy`, `Frame.dfy`). The cofactor inverse, rotation matrices and the orthonormal
frame. An angle is a pair of sine and cosine; its being on the unit circle and the square roots that the code takes
are conditions where they are needed. `Frame` describes moves and rotations as commands and proves what every run of
them keeps.

**Mesh building** (`TriangleBatch.dfy`). The deduplicating vertex index, against the plain list of corners submitted,
and the loops of the four surface generators.

**The nvwa utilities** (`BoolArray.dfy`, `LeakTracker.dfy`, `FixedMemPool.dfy`, `StaticMemPool.dfy`, `PoolSteps.dfy`,
`SetAssign.dfy`). The packed boolean array against `seq<bool>`; the circular list of live blocks; two pools, the
second also as a transition system over the critical sections of any number of threads; the in-place merges.

**Polygons** (`Polygon.dfy`, `Convexity.dfy`, `Triangulation.dfy`). The sign-change test for convexity, what it
decides, and the triangulation from the top.

**Rendering** (`RenderVisitor.dfy`). The matrix stack and the traversal of a scene, with what each geometry is drawn
with.

`Sequences.dfy` holds a few facts that several components share.

What the models found, each stated as a theorem:

- A source-name length that is negative moves the demangler's cursor back. `SignedLength` says where to, and exactly
  when that is progress, a standstill, or a place in front of the source; `PrefixNeverEnds` that a standstill makes a
  loop endless, and `EndlessName` that `_ZNn2E` gets there. The BNF says that lengths are positive. The interpreter
  stops with a fault where one is negative, `SourceNameFaults` says exactly where, and `TameNamesParse` gives a
  condition on the input that excludes it.
- The text is not always followed by a NUL: `TextIsTerminated` has a condition under which it is,
  `TextIsNotTerminated` a name where a stray character follows instead, and `NothingIsWritten` one where the buffer is
  not written at all.
- A separator that did not fit is taken back all the same. `CopyLeavesBuffer` says exactly when printing the previous
  name again then looks behind the buffer, `CancelledSeparator` how the cursor gets there.
- `count()` of a packed array is the number of true elements exactly when the padding bits are zero; `create` leaves
  them arbitrary, `initialize` and `flip` clear them, and no other operation sets them.
- The comment of the convexity test has the condition the wrong way round. The test is necessary for convexity
  (`ConvexIsAccepted`, corners on straight sides included) but accepts dented polygons (`DentIsAccepted`); for
  polygons that turn to one side at every corner it is exact (`TestIsExact`).
- `VisitTransform` does not load the outer matrix into OpenGL again after it pops it, unlike `VisitCamera`.
  `DrawnAsAccumulated` says for which scenes this cannot be seen.
- `PushMatrix` lets the stack pointer reach the depth of the stack, one past the last matrix. `WalkStaysInside` says
  exactly which scenes get there, `ChainsReachTheEnd` names some.
- `AddTriangle` checks its capacity for new vertices only. `StaysInside` says exactly which lists of corners stay
  inside the buffers, and `RepetitionLeaves` names some that do not.
- A template argument that is a value of a class type whose mangled name begins with its length is read as a name with
  internal linkage, which is tried first: `NameBeforeValue`. The round trip excludes such values (`GoodElement`).
- `Normalize` and `WorldToLocal` divide by zero exactly when up and forward are dependent.

## Model

| member | source | states |
|---|---|---|
| `Demangle.Demangle` | Projects/SkeletonApp/Libs/glog-0.3.1/src/demangle.cc:1222-1229 | Every symbol that is mangled from a well-formed name is accepted, and the buffer then begins with that name as it should be shown. The answer is yes exactly for an accepted name whose text did not overflow; what is accepted does not depend on the buffer; with (n+1)(n+24) characters it never overflows, and then the buffer begins with the translation of the derivation found; a NUL stands behind it if no source name and no nested name in the derivation is empty and constructors belong to nested names. |
| `Demangle.SymbolsAreShown` | Projects/SkeletonApp/Libs/glog-0.3.1/src/demangle.cc:429-1229 | Round trip: the symbol of every well-formed function, datum, table, guard or thunk, with any version behind it, is accepted without a fault, and its translation is the name as a reader wants to see it. Names and types nest without bound: qualified and local names, template instances, operators, casts, constructors, destructors, pointers, qualifiers, arrays, function and member types, literals and addresses as arguments. |
| `DemangleRoundTrip.SymbolIsShown` | Projects/SkeletonApp/Libs/glog-0.3.1/src/demangle.cc:429-1229 | The same for a run with a buffer of any size: it reads the whole symbol, and the derivation found says what the name is shown as. |
| `DemangleRoundTrip.SymbolReads` | Projects/SkeletonApp/Libs/glog-0.3.1/src/demangle.cc:429-443 | With printing off the whole symbol is read, from `_Z` to the version. |
| `DemangleRoundTrip.EncodedReads` | Projects/SkeletonApp/Libs/glog-0.3.1/src/demangle.cc:447-460 | The encoding of a function, a datum or a special name is read to its end, and nothing behind it. |
| `DemangleRoundTrip.EntityReads` | Projects/SkeletonApp/Libs/glog-0.3.1/src/demangle.cc:464-481 | So is every name, plain or of a template, qualified or local: the alternatives in front of the right one all fail. |
| `DemangleRoundTrip.PathReads` | Projects/SkeletonApp/Libs/glog-0.3.1/src/demangle.cc:533-552 | The loop of the prefix reads every component with its template arguments, and stops at the `E`. |
| `DemangleRoundTrip.TyReads` | Projects/SkeletonApp/Libs/glog-0.3.1/src/demangle.cc:874-917 | Every type is read to its end, whatever follows it except for `I` and `_`. |
| `DemangleRoundTrip.NoTypeAt` | Projects/SkeletonApp/Libs/glog-0.3.1/src/demangle.cc:1049-1060 | At an `L` that no source name follows there is no type, so that a template argument is read as a value. |
| `DemangleRoundTrip.NameBeforeValue` | Projects/SkeletonApp/Libs/glog-0.3.1/src/demangle.cc:1049-1060 | At an `L` with a source name behind it a template argument ends behind that name, so that a value of a class type that is mangled so is not read as a value. |
| `DemangleShown.EncodedShown` | Projects/SkeletonApp/Libs/glog-0.3.1/src/demangle.cc:278-294 | What the derivation of a name prints, piece by piece, is the text of the name: components joined by `::`, `()` and `<>` for parameters and arguments, a space between two `<`. |
| `DemangleShown.PathShown` | Projects/SkeletonApp/Libs/glog-0.3.1/src/demangle.cc:835-858 | In a qualified name constructors and destructors are called by the component before them. |
| `DemangleReading.DigitsValue` | Projects/SkeletonApp/Libs/glog-0.3.1/src/demangle.cc:590-611 | The decimal digits of a number have its value. |
| `DemangleReading.SourceNameReads` | Projects/SkeletonApp/Libs/glog-0.3.1/src/demangle.cc:565-573 | A name behind its length is read as a source name, whatever follows; an anonymous namespace is shown as such. |
| `DemangleCases.ConstructorIsNamed` | Projects/SkeletonApp/Libs/glog-0.3.1/src/demangle.cc:272-294 | For every identifier w, in ranges of its first letter: `_ZN`, the length of w, w and `C1Ev` is accepted with the text `w::w()`, and with `D1Ev` it is `w::~w()`. |
| `DemangleCases.FooCases` | Projects/SkeletonApp/Libs/glog-0.3.1/src/demangle_unittest.txt:5-6 | The first two cases of the unit test: `_ZN3FooC1Ev` gives `Foo::Foo()`, `_ZN3FooD1Ev` gives `Foo::~Foo()`. |
| `Demangle.TextIsTerminated` | Projects/SkeletonApp/Libs/glog-0.3.1/src/demangle.cc:248-265 | In a buffer of any size that has not overflowed a NUL stands at the output cursor, if no source name and no nested name in the derivation is empty and constructors belong to nested names. |
| `DemangleUnterminated.TextIsNotTerminated` | Projects/SkeletonApp/Libs/glog-0.3.1/src/demangle.cc:1156-1174 | Without that condition it need not: `_ZZ1aEZ0Es` is accepted with the text `a::`, and a colon follows it, left there by an alternative that failed. |
| `DemangleUnterminated.NothingIsWritten` | Projects/SkeletonApp/Libs/glog-0.3.1/src/demangle.cc:1222-1229 | `_Z0` is accepted without an overflow, and the buffer is left as it was passed in, with or without a NUL. |
| `Demangle.AcceptedIsDerivable` | Projects/SkeletonApp/Libs/glog-0.3.1/src/demangle.cc:429-1229 | Grammar soundness: the whole accepted input is the yield of a derivation from `<mangled-name>` in the BNF of the comments, with the merged prefix rule, the optional `@` suffix, and lengths that may be 0. |
| `DemangleDerivation.LengthIsPositive` | Projects/SkeletonApp/Libs/glog-0.3.1/src/demangle.cc:565-573 | A source name in a derivation has the positive unsigned length that the BNF asks for exactly if it is not empty. |
| `Demangle.TameNamesParse` | Projects/SkeletonApp/Libs/glog-0.3.1/src/demangle.cc:565-573 | If no `n` stands directly before a value of 2 or more and no number exceeds an int, the parse meets no faulty length. |
| `DemangleBuffer.SilentPartsAreShort` | Projects/SkeletonApp/Libs/glog-0.3.1/src/demangle.cc:958-969 | On every run that has not overflowed `<bare-function-type>` adds exactly `()` to the buffer and `<template-args>` exactly `<>`, with a space only between two `<`, and a NUL; with printing off they add nothing. |
| `DemangleBuffer.SilentPartsOfARun` | Projects/SkeletonApp/Libs/glog-0.3.1/src/demangle.cc:1032-1044 | On every run, overflowed or not, they leave the output as one print of these strings does. |
| `DemangleBuffer.SayExact` | Projects/SkeletonApp/Libs/glog-0.3.1/src/demangle.cc:278-294 | A print that does not overflow adds the string, behind a space between two `<`, and a NUL. |
| `DemangleBuffer.NtEnds` | Projects/SkeletonApp/Libs/glog-0.3.1/src/demangle.cc:248-265 | A nonterminal whose derivation says something last has a NUL behind its text, unless it has overflowed. |
| `DemangleBuffer.NamedSpeaks` | Projects/SkeletonApp/Libs/glog-0.3.1/src/demangle.cc:429-1220 | A derivation without empty names says something last. |
| `DemanglePrevious.SymKeepsName` | Projects/SkeletonApp/Libs/glog-0.3.1/src/demangle.cc:278-294 | On every path of every run the remembered name has been written in front of the output cursor, unless something overflowed. |
| `DemanglePrevious.PreviousIsInside` | Projects/SkeletonApp/Libs/glog-0.3.1/src/demangle.cc:835-858 | So printing it again reads characters inside the buffer. |
| `DemanglePrevious.CopyLeavesBuffer` | Projects/SkeletonApp/Libs/glog-0.3.1/src/demangle.cc:251-265 | Copying a stretch of the buffer to its end looks behind the buffer exactly if the stretch does not end inside it and the cursor stands more than one place before it. |
| `DemanglePrevious.CancelledSeparator` | Projects/SkeletonApp/Libs/glog-0.3.1/src/demangle.cc:334-350 | The cursor gets there where a separator that did not fit is taken back: one such state, with the positions that a constructor then looks at. |
| `DemangleGrammar.NoLeftRecursion` | Projects/SkeletonApp/Libs/glog-0.3.1/src/demangle.cc:429-1220 | No nonterminal reaches one of its own level before it has consumed a character, and none matches the empty string: with the remaining length this is the termination measure of all the parsing functions. |
| `DemangleSpec.RunNt` | Projects/SkeletonApp/Libs/glog-0.3.1/src/demangle.cc:409-415 | Backtracking frame for every nonterminal: a match moves on and puts append mode and nest level back; a failure restores every field (buffer contents aside) except for `<mangled-name>` and `<nv-offset>`; with append off no character is written. |
| `DemangleSpec.RunSym` | Projects/SkeletonApp/Libs/glog-0.3.1/src/demangle.cc:233-246 | The same for every symbol of a rule: optional parts, repetitions, silent parts and nested names. |
| `DemangleSpec.RunPat` | Projects/SkeletonApp/Libs/glog-0.3.1/src/demangle.cc:429-1220 | The same for a chain of symbols joined by `&&`. |
| `DemangleSpec.RunAlts` | Projects/SkeletonApp/Libs/glog-0.3.1/src/demangle.cc:429-1220 | The same for a list of alternatives tried one after the other from the restored state. |
| `DemangleSpec.RunPrefix` | Projects/SkeletonApp/Libs/glog-0.3.1/src/demangle.cc:525-552 | The merged prefix rule: it never moves back, keeps append mode, writes nothing with append off; the nest level is the one thing it leaves changed. |
| `DemangleSpec.RunStar` | Projects/SkeletonApp/Libs/glog-0.3.1/src/demangle.cc:239-246 | A repetition ends whatever the input; it stays within source and buffer, never moves back and puts append mode and nest level back. |
| `DemangleControl.StarIsGreedy` | Projects/SkeletonApp/Libs/glog-0.3.1/src/demangle.cc:239-246 | A repetition never fails, and it ends where no further item can be read. |
| `DemangleSpec.RunQuiet` | Projects/SkeletonApp/Libs/glog-0.3.1/src/demangle.cc:318-327 | A part that is read with printing off leaves all of the output as it was, whether it matches or fails. |
| `DemangleSpec.RunNumeral` | Projects/SkeletonApp/Libs/glog-0.3.1/src/demangle.cc:590-655 | Numbers in base 10, 16 and 36 consume at least one character and change nothing but the cursor and the number: they print nothing. |
| `DemangleSpec.RunSizedName` | Projects/SkeletonApp/Libs/glog-0.3.1/src/demangle.cc:565-573 | A source name that matches moves on, within the source, and puts append mode and nest level back. |
| `DemangleDerivation.NtSound` | Projects/SkeletonApp/Libs/glog-0.3.1/src/demangle.cc:429-1220 | Each successful nonterminal consumes exactly a substring that is derivable from it. |
| `DemangleDerivation.SymSound` | Projects/SkeletonApp/Libs/glog-0.3.1/src/demangle.cc:429-1220 | The same for every symbol of a rule. |
| `DemangleDerivation.PrefixSound` | Projects/SkeletonApp/Libs/glog-0.3.1/src/demangle.cc:525-552 | Every prefix that is read is derivable by the merged rule. |
| `DemangleDerivation.NumeralSound` | Projects/SkeletonApp/Libs/glog-0.3.1/src/demangle.cc:590-655 | What is read as a numeral is derivable: digits, with a sign in front only in base 10. |
| `DemangleDerivation.NumeralReads` | Projects/SkeletonApp/Libs/glog-0.3.1/src/demangle.cc:590-611 | A decimal numeral remembers the value of its digits, with the sign. |
| `DemangleControl.NtAlike` | Projects/SkeletonApp/Libs/glog-0.3.1/src/demangle.cc:429-1220 | Reading is independent of printing: two states that agree on everything but the output end in states that agree so. |
| `DemangleLength.SourceNameAgrees` | Projects/SkeletonApp/Libs/glog-0.3.1/src/demangle.cc:566-573 | Where the interpreter finds no fault, it reads a source name as the code does: same result, same state. |
| `DemangleLength.StepToSign` | Projects/SkeletonApp/Libs/glog-0.3.1/src/demangle.cc:566-573 | Progress can be short: on `n02` the function succeeds with the cursor behind the sign. |
| `DemangleLength.ASignIsNoName` | Projects/SkeletonApp/Libs/glog-0.3.1/src/demangle.cc:565-573 | But no derivation of a source name yields a sign alone, so what is read by such a step is not derivable. |
| `DemangleLength.SignedLength` | Projects/SkeletonApp/Libs/glog-0.3.1/src/demangle.cc:658-671 | Behind a sign, d digits of the value v: if v is 1 the source name fails; else it succeeds with the cursor v places before the end of the digits, makes progress exactly if v <= d, stands still exactly if v = d + 1, and leaves the source in front exactly if v goes beyond its start. |
| `DemangleLength.SourceNameFaults` | Projects/SkeletonApp/Libs/glog-0.3.1/src/demangle.cc:566-573 | The interpreter stops with a fault exactly where a sign stands before a value of 2 or more, or where a number exceeds an int. |
| `DemangleLength.PrefixNeverEnds` | Projects/SkeletonApp/Libs/glog-0.3.1/src/demangle.cc:533-552 | Where v = d + 1 the loop of ParsePrefix does not end: after every number of rounds it stands where it began and succeeds once more. |
| `DemangleLength.OnlySourceName` | Projects/SkeletonApp/Libs/glog-0.3.1/src/demangle.cc:535-539 | Where a sign and a digit stand, everything that ParsePrefix tries before the source name fails and changes nothing. |
| `DemangleLength.EndlessName` | Projects/SkeletonApp/Libs/glog-0.3.1/src/demangle.cc:1222-1229 | The input `_ZNn2E` gets there: at the cursor 3 the loop stays for ever. |
| `DemangleLookahead.NtFails` | Projects/SkeletonApp/Libs/glog-0.3.1/src/demangle.cc:429-1220 | A nonterminal that cannot begin with the next character fails, and neither the state nor any character of the buffer changes. |
| `DemangleLookahead.TableIsComplete` | Projects/SkeletonApp/Libs/glog-0.3.1/src/demangle.cc:429-1220 | The table of first characters covers every alternative of every nonterminal. |
| `DemangleControl.NtTame` | Projects/SkeletonApp/Libs/glog-0.3.1/src/demangle.cc:429-1220 | With tame numbers no nonterminal ever faults. |
| `DemangleOutput.SayShows` | Projects/SkeletonApp/Libs/glog-0.3.1/src/demangle.cc:278-294 | Printing a string adds it to the text shown, behind a space between two `<`, and remembers an identifier for constructors. |
| `DemangleOutput.SayPreviousIsSay` | Projects/SkeletonApp/Libs/glog-0.3.1/src/demangle.cc:835-858 | Printing the previous name from the buffer adds the identifier that was printed last. |
| `DemangleRoom.DemangledText` | Projects/SkeletonApp/Libs/glog-0.3.1/src/demangle.cc:1222-1229 | A buffer of (n+1)(n+24) characters never overflows, although constructors repeat earlier names, and shows the translation of the derivation. |
| `DemangleRoom.NtAffords` | Projects/SkeletonApp/Libs/glog-0.3.1/src/demangle.cc:251-303 | From a state with room, a nonterminal leaves room, keeps all text written before it and, if it matches, shows its translation. |
| `DemangleRoom.RulePays` | Projects/SkeletonApp/Libs/glog-0.3.1/src/demangle.cc:429-1220 | The characters that each rule consumes pay for the text that it prints, previous names included. |
| `Demangle.State.RemainingLength` | Projects/SkeletonApp/Libs/glog-0.3.1/src/demangle.cc:189-192 | How many characters are left. |
| `Demangle.State.ParseChar` | Projects/SkeletonApp/Libs/glog-0.3.1/src/demangle.cc:194-202 | One given character. |
| `Demangle.State.ParseTwoChar` | Projects/SkeletonApp/Libs/glog-0.3.1/src/demangle.cc:204-214 | Two given characters. |
| `Demangle.State.ParseCharClass` | Projects/SkeletonApp/Libs/glog-0.3.1/src/demangle.cc:216-230 | One character of a class. |
| `Demangle.State.Append` | Projects/SkeletonApp/Libs/glog-0.3.1/src/demangle.cc:248-265 | Writes while a character and a NUL fit, else sets the overflow flag; every write is inside the buffer. |
| `Demangle.State.MaybeAppendWithLength` | Projects/SkeletonApp/Libs/glog-0.3.1/src/demangle.cc:276-294 | Prints if append is on. |
| `Demangle.State.MaybeAppend` | Projects/SkeletonApp/Libs/glog-0.3.1/src/demangle.cc:296-303 | Prints if append is on. |
| `Demangle.State.EnterNestedName` | Projects/SkeletonApp/Libs/glog-0.3.1/src/demangle.cc:305-309 | Sets the nest level to 0. |
| `Demangle.State.LeaveNestedName` | Projects/SkeletonApp/Libs/glog-0.3.1/src/demangle.cc:311-315 | Puts the nest level back. |
| `Demangle.State.DisableAppend` | Projects/SkeletonApp/Libs/glog-0.3.1/src/demangle.cc:317-321 | Turns printing off. |
| `Demangle.State.RestoreAppend` | Projects/SkeletonApp/Libs/glog-0.3.1/src/demangle.cc:323-327 | Puts the append mode back. |
| `Demangle.State.MaybeIncreaseNestLevel` | Projects/SkeletonApp/Libs/glog-0.3.1/src/demangle.cc:329-334 | Counts a level inside a nested name. |
| `Demangle.State.MaybeAppendSeparator` | Projects/SkeletonApp/Libs/glog-0.3.1/src/demangle.cc:336-341 | Prints `::` from the second part on. |
| `Demangle.State.MaybeCancelLastSeparator` | Projects/SkeletonApp/Libs/glog-0.3.1/src/demangle.cc:343-350 | Takes the last `::` back. |
| `Demangle.State.StrPrefix` | Projects/SkeletonApp/Libs/glog-0.3.1/src/demangle.cc:164-172 | Does the rest begin with a string? |
| `Demangle.State.IdentifierIsAnonymousNamespace` | Projects/SkeletonApp/Libs/glog-0.3.1/src/demangle.cc:352-358 | The prefix stands at the cursor, and the number, compared without its sign, is larger than its length. |
| `Demangle.State.OneOrMore` | Projects/SkeletonApp/Libs/glog-0.3.1/src/demangle.cc:239-246 | One or more of a nonterminal. |
| `Demangle.State.ParseMangledName` | Projects/SkeletonApp/Libs/glog-0.3.1/src/demangle.cc:429-442 | Ends exactly as the interpreter does on `MangledName`, the rules of `<mangled-name>`: same result, same fields, same buffer. |
| `Demangle.State.ParseEncoding` | Projects/SkeletonApp/Libs/glog-0.3.1/src/demangle.cc:444-458 | Ends exactly as the interpreter does on `Encoding`, the rules of `<encoding>`: same result, same fields, same buffer. |
| `Demangle.State.ParseName` | Projects/SkeletonApp/Libs/glog-0.3.1/src/demangle.cc:460-481 | Ends exactly as the interpreter does on `Name`, the rules of `<name>`: same result, same fields, same buffer. |
| `Demangle.State.ParseUnscopedName` | Projects/SkeletonApp/Libs/glog-0.3.1/src/demangle.cc:483-498 | Ends exactly as the interpreter does on `UnscopedName`, the rules of `<unscoped-name>`: same result, same fields, same buffer. |
| `Demangle.State.ParseUnscopedTemplateName` | Projects/SkeletonApp/Libs/glog-0.3.1/src/demangle.cc:500-504 | Ends exactly as the interpreter does on `UnscopedTemplateName`, the rules of `<unscoped-template-name>`: same result, same fields, same buffer. |
| `Demangle.State.ParseNestedName` | Projects/SkeletonApp/Libs/glog-0.3.1/src/demangle.cc:506-520 | Ends exactly as the interpreter does on `NestedName`, the rules of `<nested-name>`: same result, same fields, same buffer. |
| `Demangle.State.ParsePrefix` | Projects/SkeletonApp/Libs/glog-0.3.1/src/demangle.cc:522-552 | Ends exactly as the interpreter does on the merged prefix rule, nest level included. |
| `Demangle.State.ParseUnqualifiedName` | Projects/SkeletonApp/Libs/glog-0.3.1/src/demangle.cc:554-563 | Ends exactly as the interpreter does on `UnqualifiedName`, the rules of `<unqualified-name>`: same result, same fields, same buffer. |
| `Demangle.State.ParseSourceName` | Projects/SkeletonApp/Libs/glog-0.3.1/src/demangle.cc:565-573 | The step as written for any length; without a faulty one, exactly what the interpreter does on `SourceName`. |
| `Demangle.State.ParseLocalSourceName` | Projects/SkeletonApp/Libs/glog-0.3.1/src/demangle.cc:575-588 | Ends exactly as the interpreter does on `LocalSourceName`, the rules of `<local-source-name>`: same result, same fields, same buffer. |
| `Demangle.State.ParseNumber` | Projects/SkeletonApp/Libs/glog-0.3.1/src/demangle.cc:590-611 | The number that the interpreter reads; a failure leaves the sign consumed. |
| `Demangle.State.ParseFloatNumber` | Projects/SkeletonApp/Libs/glog-0.3.1/src/demangle.cc:613-633 | Lower-case hexadecimal digits. |
| `Demangle.State.ParseSeqId` | Projects/SkeletonApp/Libs/glog-0.3.1/src/demangle.cc:635-655 | Digits and upper-case letters. |
| `Demangle.State.ParseIdentifier` | Projects/SkeletonApp/Libs/glog-0.3.1/src/demangle.cc:657-671 | The step as written for any number: so many characters, printed, with the anonymous namespace by its name; a negative number moves the cursor back, if need be to a place in front of the source. |
| `Demangle.State.ParseOperatorName` | Projects/SkeletonApp/Libs/glog-0.3.1/src/demangle.cc:673-719 | Ends exactly as the interpreter does on `OperatorName`, the rules of `<operator-name>`: same result, same fields, same buffer. |
| `Demangle.State.ParseSpecialName` | Projects/SkeletonApp/Libs/glog-0.3.1/src/demangle.cc:721-798 | Ends exactly as the interpreter does on `SpecialName`, the rules of `<special-name>`: same result, same fields, same buffer. |
| `Demangle.State.ParseCallOffset` | Projects/SkeletonApp/Libs/glog-0.3.1/src/demangle.cc:800-817 | Ends exactly as the interpreter does on `CallOffset`, the rules of `<call-offset>`: same result, same fields, same buffer. |
| `Demangle.State.ParseNVOffset` | Projects/SkeletonApp/Libs/glog-0.3.1/src/demangle.cc:819-822 | Ends exactly as the interpreter does on `NVOffset`, the rules of `<nv-offset>`: same result, same fields, same buffer. |
| `Demangle.State.ParseVOffset` | Projects/SkeletonApp/Libs/glog-0.3.1/src/demangle.cc:824-833 | Ends exactly as the interpreter does on `VOffset`, the rules of `<v-offset>`: same result, same fields, same buffer. |
| `Demangle.State.ParseCtorDtorName` | Projects/SkeletonApp/Libs/glog-0.3.1/src/demangle.cc:835-858 | Ends exactly as the interpreter does on `CtorDtorName`, the rules of `<ctor-dtor-name>`: same result, same fields, same buffer. |
| `Demangle.State.ParseType` | Projects/SkeletonApp/Libs/glog-0.3.1/src/demangle.cc:860-914 | Ends exactly as the interpreter does on `Type`, the rules of `<type>`: same result, same fields, same buffer. |
| `Demangle.State.ParseCVQualifiers` | Projects/SkeletonApp/Libs/glog-0.3.1/src/demangle.cc:916-925 | Ends exactly as the interpreter does on `r`, `V` and `K`, each optional: it matches if any of them is there. |
| `Demangle.State.ParseBuiltinType` | Projects/SkeletonApp/Libs/glog-0.3.1/src/demangle.cc:927-945 | Ends exactly as the interpreter does on `BuiltinType`, the rules of `<builtin-type>`: same result, same fields, same buffer. |
| `Demangle.State.ParseFunctionType` | Projects/SkeletonApp/Libs/glog-0.3.1/src/demangle.cc:947-956 | Ends exactly as the interpreter does on `FunctionType`, the rules of `<function-type>`: same result, same fields, same buffer. |
| `Demangle.State.ParseBareFunctionType` | Projects/SkeletonApp/Libs/glog-0.3.1/src/demangle.cc:958-969 | Ends exactly as the interpreter does on `BareFunctionType`, the rules of `<bare-function-type>`: same result, same fields, same buffer. |
| `Demangle.State.ParseClassEnumType` | Projects/SkeletonApp/Libs/glog-0.3.1/src/demangle.cc:971-974 | Ends exactly as the interpreter does on `ClassEnumType`, the rules of `<class-enum-type>`: same result, same fields, same buffer. |
| `Demangle.State.ParseArrayType` | Projects/SkeletonApp/Libs/glog-0.3.1/src/demangle.cc:976-992 | Ends exactly as the interpreter does on `ArrayType`, the rules of `<array-type>`: same result, same fields, same buffer. |
| `Demangle.State.ParsePointerToMemberType` | Projects/SkeletonApp/Libs/glog-0.3.1/src/demangle.cc:994-1003 | Ends exactly as the interpreter does on `PointerToMemberType`, the rules of `<pointer-to-member-type>`: same result, same fields, same buffer. |
| `Demangle.State.ParseTemplateParam` | Projects/SkeletonApp/Libs/glog-0.3.1/src/demangle.cc:1005-1021 | Ends exactly as the interpreter does on `TemplateParam`, the rules of `<template-param>`: same result, same fields, same buffer. |
| `Demangle.State.ParseTemplateTemplateParam` | Projects/SkeletonApp/Libs/glog-0.3.1/src/demangle.cc:1024-1029 | Ends exactly as the interpreter does on `TemplateTemplateParam`, the rules of `<template-template-param>`: same result, same fields, same buffer. |
| `Demangle.State.ParseTemplateArgs` | Projects/SkeletonApp/Libs/glog-0.3.1/src/demangle.cc:1031-1044 | Ends exactly as the interpreter does on `TemplateArgs`, the rules of `<template-args>`: same result, same fields, same buffer. |
| `Demangle.State.ParseTemplateArg` | Projects/SkeletonApp/Libs/glog-0.3.1/src/demangle.cc:1046-1062 | Ends exactly as the interpreter does on `TemplateArg`, the rules of `<template-arg>`: same result, same fields, same buffer. |
| `Demangle.State.ParseExpression` | Projects/SkeletonApp/Libs/glog-0.3.1/src/demangle.cc:1064-1118 | Ends exactly as the interpreter does on `Expression`, the rules of `<expression>`: same result, same fields, same buffer. |
| `Demangle.State.ParseExprPrimary` | Projects/SkeletonApp/Libs/glog-0.3.1/src/demangle.cc:1120-1154 | Ends exactly as the interpreter does on `ExprPrimary`, the rules of `<expr-primary>`: same result, same fields, same buffer. |
| `Demangle.State.ParseLocalName` | Projects/SkeletonApp/Libs/glog-0.3.1/src/demangle.cc:1156-1174 | Ends exactly as the interpreter does on `LocalName`, the rules of `<local-name>`: same result, same fields, same buffer. |
| `Demangle.State.ParseDiscriminator` | Projects/SkeletonApp/Libs/glog-0.3.1/src/demangle.cc:1176-1184 | Ends exactly as the interpreter does on `Discriminator`, the rules of `<discriminator>`: same result, same fields, same buffer. |
| `Demangle.State.ParseSubstitution` | Projects/SkeletonApp/Libs/glog-0.3.1/src/demangle.cc:1186-1220 | Ends exactly as the interpreter does on `Substitution`, the rules of `<substitution>`: same result, same fields, same buffer. |
| `Demangle.State.constructor` | Projects/SkeletonApp/Libs/glog-0.3.1/src/demangle.cc:174-187 | The initial state. |
| `Demangle.State.AppendVersionSuffix` | Projects/SkeletonApp/Libs/glog-0.3.1/src/demangle.cc:429-442 | Everything from an `@` on is consumed and printed as it stands; without an `@` nothing happens. |
| `Demangle.State.ParseOperatorAbbreviation` | Projects/SkeletonApp/Libs/glog-0.3.1/src/demangle.cc:673-719 | Two letters are looked up in the table of operators; the name is printed, behind `operator` and a space if it begins with a letter. |
| `Demangle.State.ParseBuiltinAbbreviation` | Projects/SkeletonApp/Libs/glog-0.3.1/src/demangle.cc:927-945 | One letter is looked up in the table of builtin types; the name is printed. |
| `Demangle.State.ParseSubstitutionAbbreviation` | Projects/SkeletonApp/Libs/glog-0.3.1/src/demangle.cc:1186-1220 | The second letter is looked up in the table of standard names; `std` is printed with the name, if it has one. |
| `Matrix44.MatrixMultiply44` | Src/Include/math3d.cpp:135-144 | The array becomes the product of the factors as they were, also where it takes the place of the first factor. |
| `Matrix44.FillRow` | Src/Include/math3d.cpp:137-143 | One round of the loop fills row i and leaves the other rows. |
| `Matrix44.MultiplyAssociates` | Src/Include/math3d.cpp:135-144 | The product is associative. |
| `Matrix44.IdentityIsUnit` | Src/Include/math3d.cpp:74-83 | The identity is neutral on both sides. |
| `Matrix44.TransformVector4` | Src/Include/math3d.h:445-451 | The four entries are the rows of the matrix against the vector. |
| `Matrix44.TransformTwice` | Src/Include/math3d.h:445-451 | Transforming by a product is transforming by the second and then by the first matrix. |
| `Matrix44.ProductColumn` | Src/Include/math3d.cpp:135-144 | Column c of a product is the first matrix applied to column c of the second. |
| `Matrix44.DetIJ` | Src/Include/math3d.cpp:460-484 | The determinant of what is left without line i and position j. |
| `Matrix44.Determinant` | Src/Include/math3d.cpp:524-530 | The loop adds up the cofactor expansion along line 0. |
| `Matrix44.InvertMatrix44` | Src/Include/math3d.cpp:519-541 | For every matrix with a nonzero determinant the result times the matrix, and the matrix times the result, is the identity. |
| `Matrix44.InverseIsTwoSided` | Src/Include/math3d.cpp:519-541 | The transposed cofactors over the determinant are a two-sided inverse. |
| `Matrix44.ExpandLines` | Src/Include/math3d.cpp:524-540 | Line i against the cofactors of line j is the determinant if i = j and vanishes otherwise. |
| `Matrix44.CofactorTransposed` | Src/Include/math3d.cpp:533-540 | The cofactors of the transpose are the transposed cofactors. |
| `Matrix44.DetTransposed` | Src/Include/math3d.cpp:524-529 | Expansion along the first line and along the first position agree. |
| `Matrix44.LeftInverseIsInverse` | Src/Include/math3d.cpp:519-541 | Any left inverse of an invertible matrix is what the code computes, and is a right inverse too. |
| `Vector3.TurnKeepsDot` | Src/Include/math3d.cpp:303-341 | Turning about a unit axis keeps every dot product. |
| `Vector3.TurnKeepsCross` | Src/Include/math3d.cpp:303-341 | Turning keeps every cross product: rotations do not mirror. |
| `Vector3.TurnsCompose` | Src/Include/math3d.cpp:303-341 | Turning by a and then by b about one axis is turning by the sum of the angles. |
| `Vector3.RotateKeepsDot` | Src/Include/math3d.cpp:287-342 | The same for any axis, scaled by the root of its squared length; an axis of length zero turns nothing. |
| `Vector3.RotateKeepsCross` | Src/Include/math3d.cpp:287-342 | The same for the cross product. |
| `Vector3.RotateKeepsAxis` | Src/Include/math3d.cpp:287-342 | The axis itself stays. |
| `Vector3.RotationsCompose` | Src/Include/math3d.cpp:287-342 | Rotations about one axis add their angles. |
| `Vector3.RotationUndone` | Src/Include/math3d.cpp:287-342 | Turning back by the same angle restores every vector. |
| `Vector3.TurnColumns` | Src/Include/math3d.cpp:321-339 | The nine entries of the matrix are the turned unit vectors of the axis-angle formula. |
| `Vector3.TurnIsByAngle` | Src/Include/math3d.cpp:321-339 | What lies across the axis is turned by the angle, from the first to the second axis of a right-handed system: cosine and sine appear in the dot and cross products. |
| `Vector3.RotateOfMix` | Src/Include/math3d.cpp:321-339 | A rotation of a linear combination is the combination of the rotated vectors. |
| `Vector3.RotateIsLinear` | Src/Include/math3d.h:466-472 | The three columns say what a rotation does to every vector. |
| `Vector3.Lagrange` | Src/Include/math3d.h:234-252 | The dot product of two cross products. |
| `Vector3.CrossTwice` | Src/Include/math3d.h:234-239 | The triple cross product. |
| `Vector3.CrossIsOrthogonal` | Src/Include/math3d.h:234-252 | A cross product is orthogonal to both factors. |
| `Vector3.ScaledToUnit` | Src/Include/math3d.h:292-293 | A vector over the root of its squared length has length one. |
| `Frame.RotationMatrix44` | Src/Include/math3d.cpp:287-342 | The matrix of the turned unit vectors, or the identity for an axis of length zero. |
| `Frame.RotationMatrix33` | Src/Include/math3d.cpp:237-281 | The same nine entries in the 3x3 form. |
| `Frame.LoadIdentity33` | Src/Include/math3d.cpp:52-60 | The 3x3 identity. |
| `Frame.RotationTurns` | Src/Include/math3d.cpp:287-342 | Applying the matrix to any vector rotates it. |
| `Frame.RotateVector` | Src/Include/math3d.h:466-472 | A 3x3 matrix applied to a vector. |
| `Frame.LoadIdentity44` | Src/Include/math3d.cpp:74-83 | The identity. |
| `Frame.TranslationMatrix44` | Src/Include/math3d.h:520-521 | The identity with the offset in the last column. |
| `Frame.SetMatrixColumn44` | Src/Include/math3d.h:371-372 | Three entries of a column; the fourth is whatever lies behind the vector. |
| `Frame.StepKeepsOrthonormal` | Src/Include/GLFrame.h:114-396 | Every move, rotation and normalisation keeps up and forward orthonormal. |
| `Frame.MovesAreLocal` | Src/Include/GLFrame.h:123-148 | A move puts the origin where the point with the local coordinates (d, 0, 0), (0, d, 0) or (0, 0, d) was; up and forward stay. |
| `Frame.DefaultMoves` | Src/Include/GLFrame.h:54-68 | From the default frame forward leads down the z axis, up along the y axis and right down the x axis. |
| `Frame.TranslationsMove` | Src/Include/GLFrame.h:114-118 | A local translation puts the origin where the point with these local coordinates was, a translation in the world adds the vector. |
| `Frame.RotationsAreWorldOrLocal` | Src/Include/GLFrame.h:240-347 | For an orthonormal frame: after a rotation in the world what the frame shows of a vector is the rotated vector; after a local rotation it is what it showed of the vector rotated about the axis as given in local coordinates. The origin stays. |
| `Frame.NormalizeKeepsDirections` | Src/Include/GLFrame.h:298-312 | Normalizing keeps the direction of up and the plane of up and forward: the new forward is what up leaves of the old one. |
| `Frame.CameraSees` | Src/Include/GLFrame.h:190-236 | The camera matrix gives a point the coordinates of its offset along the axes, x and z turned round. |
| `Frame.RunKeepsOrthonormal` | Src/Include/GLFrame.h:114-396 | So does every run of them. |
| `Frame.RunsStayRigid` | Src/Include/GLFrame.h:355-396 | After any run from the default frame local and world coordinates are inverse to each other, the rotation part has determinant 1, and distances are kept. |
| `Frame.RunsKeepCameraInverse` | Src/Include/GLFrustum.h:154-198 | After any run from the default frame the camera matrix and the matrix of the frustum are inverse to each other on both sides. |
| `Frame.CameraUndoesFrustum` | Src/Include/GLFrame.h:190-236 | The camera matrix times the frustum matrix is the identity exactly when the frame is orthonormal. |
| `Frame.CoordinatesRoundTrip` | Src/Include/GLFrame.h:355-396 | WorldToLocal and LocalToWorld undo each other wherever the rotation part is invertible. |
| `Frame.Invertible` | Src/Include/GLFrame.h:376-396 | The rotation part is invertible exactly when up and forward are independent. |
| `Frame.LocalIsProjection` | Src/Include/GLFrame.h:376-396 | In an orthonormal frame local coordinates are the projections on the three axes. |
| `Frame.RigidMotion` | Src/Include/GLFrame.h:355-373 | An orthonormal frame keeps all dot products. |
| `Frame.TurningKeepsOrthonormal` | Src/Include/GLFrame.h:315-335 | A rotation in the world turns the right axis with the other two. |
| `Frame.LocalTurnsWholeFrame` | Src/Include/GLFrame.h:240-293 | Rotating forward about up, or up about forward, turns the whole frame. |
| `Frame.NormalizedIsOrthonormal` | Src/Include/GLFrame.h:298-311 | Normalize makes any independent frame orthonormal. |
| `Frame.NormalizeIsIdempotent` | Src/Include/GLFrame.h:298-311 | Normalising an orthonormal frame leaves it as it is. |
| `Frame.LocalAxisIsUnit` | Src/Include/math3d.cpp:295-306 | In an orthonormal frame the axis of a local rotation has length one. |
| `Frame.NormalizeNeedsIndependence` | Src/Include/GLFrame.h:298-311 | Normalize divides by zero exactly when up and forward are dependent. |
| `Frame.GLFrame.constructor` | Src/Include/GLFrame.h:54-65 | The default frame. |
| `Frame.GLFrame.MoveForward` | Src/Include/GLFrame.h:123-129 | The commanded step, nothing else. |
| `Frame.GLFrame.MoveUp` | Src/Include/GLFrame.h:132-138 | The commanded step, nothing else. |
| `Frame.GLFrame.MoveRight` | Src/Include/GLFrame.h:141-150 | The commanded step, nothing else. |
| `Frame.GLFrame.TranslateWorld` | Src/Include/GLFrame.h:114-115 | The commanded step, nothing else. |
| `Frame.GLFrame.TranslateLocal` | Src/Include/GLFrame.h:117-118 | Three moves along the own axes. |
| `Frame.GLFrame.GetMatrix` | Src/Include/GLFrame.h:155-184 | Right, up, forward and position as columns; the stray fourth entries are overwritten. |
| `Frame.GLFrame.GetCameraMatrix` | Src/Include/GLFrame.h:190-236 | The transposed axes times the opposite translation. |
| `Frame.GLFrame.RotateLocalY` | Src/Include/GLFrame.h:240-256 | Forward turns about up. |
| `Frame.GLFrame.RotateLocalZ` | Src/Include/GLFrame.h:260-273 | Up turns about forward. |
| `Frame.GLFrame.RotateLocalX` | Src/Include/GLFrame.h:275-293 | Up and forward turn about the right axis. |
| `Frame.GLFrame.RotateWorld` | Src/Include/GLFrame.h:315-335 | Up and forward turn about a world axis. |
| `Frame.GLFrame.RotateLocal` | Src/Include/GLFrame.h:339-347 | The same about an axis in local terms. |
| `Frame.GLFrame.Normalize` | Src/Include/GLFrame.h:298-311 | The new frame, which is orthonormal. |
| `Frame.GLFrame.LocalToWorld` | Src/Include/GLFrame.h:355-373 | The vector across the axes, moved by the origin. |
| `Frame.GLFrame.WorldToLocal` | Src/Include/GLFrame.h:376-396 | The local vector whose world position is the argument. |
| `Frame.FrustumTransform` | Src/Include/GLFrustum.h:154-198 | The matrix from the reversed forward direction; for an orthonormal frame the camera matrix undoes it. |
| `TriangleBatch.BuildRepresents` | Src/Include/GLTriangleBatch.cpp:121-170 | Stored vertices are pairwise not close; the index of every corner is the earliest stored vertex close to it in all eight numbers; every stored vertex is the corner of its first use; there are no more vertices than corners. |
| `TriangleBatch.DrawnWithinTolerance` | Src/Include/GLTriangleBatch.cpp:139-156 | Every corner is drawn with a vertex that differs from it by less than 0.00001 in each of the eight numbers. |
| `TriangleBatch.StoredAreApart` | Src/Include/GLTriangleBatch.cpp:139-156 | Any two stored vertices differ by 0.00001 or more in one of the eight numbers. |
| `TriangleBatch.OnlyBuildRepresents` | Src/Include/GLTriangleBatch.cpp:121-170 | These properties determine vertices, order and indexes: no other mesh has them. |
| `TriangleBatch.BatchRepresents` | Src/Include/GLTriangleBatch.cpp:96-170 | At any time the buffers represent the list of corners submitted, and every index is below the number of vertices. |
| `TriangleBatch.StaysInside` | Src/Include/GLTriangleBatch.cpp:133-169 | However many corners are submitted, the indexes stay inside the buffer exactly if none of the corners that come after the batch is full is close to a stored vertex; then the batch is the one that was full. |
| `TriangleBatch.RepetitionLeaves` | Src/Include/GLTriangleBatch.cpp:151-156 | A full batch puts the index of any corner that it has seen before behind its buffer. |
| `TriangleBatch.VertexRoomIsExact` | Src/Include/GLTriangleBatch.cpp:133-169 | The room that AddVertex asks for is necessary and sufficient. |
| `TriangleBatch.GLTriangleBatch.constructor` | Src/Include/GLTriangleBatch.cpp:60-70 | Empty. |
| `TriangleBatch.GLTriangleBatch.BeginMesh` | Src/Include/GLTriangleBatch.cpp:96-114 | New buffers of the given capacity, nothing submitted. |
| `TriangleBatch.GLTriangleBatch.FindMatch` | Src/Include/GLTriangleBatch.cpp:135-157 | The first stored vertex that is close, or the number of vertices. |
| `TriangleBatch.GLTriangleBatch.AddVertex` | Src/Include/GLTriangleBatch.cpp:133-169 | With room, one corner more; a full batch drops a new vertex, while a known one would be stored behind the buffer. |
| `TriangleBatch.GLTriangleBatch.AddTriangle` | Src/Include/GLTriangleBatch.cpp:121-170 | With three free slots exactly the three normalised corners are submitted; the normals passed in are left normalised. |
| `TriangleBatch.AddCell` | Src/Include/GLTools.cpp:236-247 | Two triangles share the corners of a cell; normalising twice changes nothing. |
| `TriangleBatch.AddSurface` | Src/Include/GLTools.cpp:166-249 | The nested loops submit the cells row after row. |
| `TriangleBatch.MakeTorus` | Src/Include/GLTools.cpp:159-251 | numMajor rows of numMinor + 1 cells fill the declared capacity exactly; nothing is dropped. |
| `TriangleBatch.MakeStacks` | Src/Include/GLTools.cpp:255-610 | The sphere, and with the same loops and capacity the disk and the cylinder, fill it exactly. |
| `BoolArray.BitCounts` | Libs/nvwa-0.8.2/bool_array.cpp:43-97 | Every one of the 256 entries of the table is the number of set bits. |
| `BoolArray.BoolArray.constructor` | Libs/nvwa-0.8.2/bool_array.h:83-83 | Empty. |
| `BoolArray.BoolArray.Create` | Libs/nvwa-0.8.2/bool_array.cpp:108-128 | False for size 0, too many bytes or no memory; the contents are arbitrary at first. |
| `BoolArray.BoolArray.Initialize` | Libs/nvwa-0.8.2/bool_array.cpp:135-145 | Every element has the value and the padding is zero. |
| `BoolArray.BoolArray.Trim` | Libs/nvwa-0.8.2/bool_array.cpp:142-143 | The mask of the last byte clears the padding and nothing else. |
| `BoolArray.BoolArray.Count` | Libs/nvwa-0.8.2/bool_array.cpp:152-160 | All set bits: the number of true elements exactly when the padding is zero. |
| `BoolArray.BoolArray.CountRange` | Libs/nvwa-0.8.2/bool_array.cpp:169-198 | The number of true elements in the range whatever the padding; 0 for an empty range; out of range only behind the end. |
| `BoolArray.BoolArray.Flip` | Libs/nvwa-0.8.2/bool_array.cpp:203-211 | Every element is inverted and the padding is zero, whatever it was. |
| `BoolArray.BoolArray.Store` | Libs/nvwa-0.8.2/bool_array.h:129-136 | The bit has the value and the rest of the buffer is as it was. |
| `BoolArray.BoolArray.Assign` | Libs/nvwa-0.8.2/bool_array.h:129-175 | The element has the value; all others and the padding stay. |
| `BoolArray.BoolArray.At` | Libs/nvwa-0.8.2/bool_array.h:184-192 | The element, or out of range. |
| `BoolArray.BoolArray.Set` | Libs/nvwa-0.8.2/bool_array.h:216-224 | The element is true; all others and the padding stay; out of range changes nothing. |
| `BoolArray.BoolArray.Reset` | Libs/nvwa-0.8.2/bool_array.h:200-208 | The element is false; all others and the padding stay; out of range changes nothing. |
| `BoolArray.CountAfterRun` | Libs/nvwa-0.8.2/bool_array.cpp:135-211 | After initialize any run of set, reset, element assignment and flip is the same run on a plain sequence, the padding stays zero, and count is its number of true elements. |
| `BoolArray.FlippedRun` | Libs/nvwa-0.8.2/bool_array.cpp:203-211 | A flip turns the count into length minus count, and two flips undo each other. |
| `BoolArray.FlippedOnes` | Libs/nvwa-0.8.2/bool_array.cpp:203-211 | The count of the inverted sequence. |
| `BoolArray.OnesSplit` | Libs/nvwa-0.8.2/bool_array.cpp:169-198 | Counts are additive over adjacent ranges. |
| `BoolArray.MaskedByte` | Libs/nvwa-0.8.2/bool_array.cpp:182-193 | The shifted masks select exactly the bits of the range. |
| `LeakTracker.Tracker.constructor` | Libs/nvwa-0.8.2/debug_new.cpp:234-248 | The sentinel points at itself. |
| `LeakTracker.Tracker.AllocMem` | Libs/nvwa-0.8.2/debug_new.cpp:452-513 | The block joins the live ones at the end, also at a place that was used before; the ring stays a ring both ways; the total grows by its size; without memory nothing changes. |
| `LeakTracker.Tracker.Append` | Libs/nvwa-0.8.2/debug_new.cpp:487-493 | The four assignments keep every next and prev link. |
| `LeakTracker.Tracker.FreePointer` | Libs/nvwa-0.8.2/debug_new.cpp:523-591 | A live block with intact header and matching form leaves the ring and the total, the others keep their order; NULL is ignored; a bad header or the wrong form changes nothing. |
| `LeakTracker.Tracker.Unlink` | Libs/nvwa-0.8.2/debug_new.cpp:573-579 | After the assignments the neighbours of the block point at each other. |
| `LeakTracker.Tracker.Remove` | Libs/nvwa-0.8.2/debug_new.cpp:573-579 | The ring without the block is linked both ways and the total is the sum of the sizes left. |
| `LeakTracker.Tracker.CheckLeaks` | Libs/nvwa-0.8.2/debug_new.cpp:598-636 | The walk ends and reports each live block once, in order of allocation; the result is their number. |
| `LeakTracker.Tracker.CheckMemCorruption` | Libs/nvwa-0.8.2/debug_new.cpp:644-689 | The number of live blocks whose header does not hold the number 0x4442474E. |
| `LeakTracker.CorruptCounts` | Libs/nvwa-0.8.2/debug_new.cpp:644-689 | The count of the loop is the cardinality of the set of corrupt blocks. |
| `LeakTracker.LeaksAreUndeleted` | Libs/nvwa-0.8.2/debug_new.cpp:598-636 | Over any run, places given out again included, the live blocks are exactly those allocated and not freed since, each once. |
| `LeakTracker.NoLeaks` | Libs/nvwa-0.8.2/debug_new.cpp:598-636 | No leaks are found exactly when every allocation of the run was freed afterwards, and then the total is zero. |
| `LeakTracker.Spliced` | Libs/nvwa-0.8.2/debug_new.cpp:577-578 | If the neighbours of block i point at each other, the ring without it is linked. |
| `FixedMemPool.Pool.constructor` | Libs/nvwa-0.8.2/fixed_mem_pool.h:95-105 | Not initialised. |
| `FixedMemPool.Pool.Initialize` | Libs/nvwa-0.8.2/fixed_mem_pool.h:153-172 | All blocks are chained in order, the last to NULL; none is out; without memory the pool stays uninitialised. |
| `FixedMemPool.Pool.Allocate` | Libs/nvwa-0.8.2/fixed_mem_pool.h:112-128 | The first free block goes out; NULL exactly when none is free. |
| `FixedMemPool.Pool.Deallocate` | Libs/nvwa-0.8.2/fixed_mem_pool.h:135-145 | The block becomes the first free one; NULL is ignored. |
| `FixedMemPool.Pool.ClientWrites` | Libs/nvwa-0.8.2/fixed_mem_pool.h:118-123 | What clients write into their blocks does not touch the free list. |
| `FixedMemPool.Pool.Deinitialize` | Libs/nvwa-0.8.2/fixed_mem_pool.h:181-191 | The number of blocks still out; zero only if every block came back, and only then the pool is gone. |
| `FixedMemPool.AllBlocks` | Libs/nvwa-0.8.2/fixed_mem_pool.h:112-128 | Free and outstanding blocks are together all blocks, so allocation fails exactly when all are out. |
| `StaticMemPool.Pool.constructor` | Libs/nvwa-0.8.2/static_mem_pool.h:223-228 | Empty. |
| `StaticMemPool.Pool.Pop` | Libs/nvwa-0.8.2/static_mem_pool.h:156-164 | The first free block, or null for the way to the system. |
| `StaticMemPool.Pool.Deallocate` | Libs/nvwa-0.8.2/static_mem_pool.h:172-179 | The block becomes the first free one. |
| `StaticMemPool.Pool.Recycle` | Libs/nvwa-0.8.2/static_mem_pool.h:235-259 | Exactly the blocks at even positions stay, in order; exactly the others go to the system, each once. |
| `StaticMemPool.Pool.UnlinkOdds` | Libs/nvwa-0.8.2/static_mem_pool.h:242-256 | The loop chains the even positions to each other. |
| `StaticMemPool.EvensAndOdds` | Libs/nvwa-0.8.2/static_mem_pool.h:242-256 | Kept and released blocks are disjoint and together all of them. |
| `StaticMemPool.RecycledCount` | Libs/nvwa-0.8.2/static_mem_pool.h:235-259 | k recycles of n free blocks leave n divided by 2 to the k, rounded up. |
| `PoolSteps.EveryBlockHasOnePlace` | Libs/nvwa-0.8.2/static_mem_pool.h:154-272 | In every interleaving of the critical sections by any number of threads on any number of pools, a block that the system gave out is held by one client or stands once in one free list, and what recycle returns was given out. |
| `PoolSteps.RunKeepsInvariant` | Libs/nvwa-0.8.2/static_mem_pool.h:154-272 | The invariant holds after every run. |
| `PoolSteps.StepKeepsInvariant` | Libs/nvwa-0.8.2/static_mem_pool.h:154-272 | Each critical section keeps it. |
| `PoolSteps.PopKeepsPlaces` | Libs/nvwa-0.8.2/static_mem_pool.h:156-164 | Taking a free block, or finding none. |
| `PoolSteps.GivenKeepsPlaces` | Libs/nvwa-0.8.2/static_mem_pool.h:261-272 | A new block of the system, at the first or the second try. |
| `PoolSteps.AnswerIsHeld` | Libs/nvwa-0.8.2/static_mem_pool.h:261-272 | When the system answers with a block, at the first or the second try, the client holds it for the pool that it asked for, the ledger has it, the thread is idle, and nothing else has changed. |
| `PoolSteps.RunsHandOut` | Libs/nvwa-0.8.2/static_mem_pool.h:135-172 | Over every run from the start: the ledger has a block exactly if the system gave it and no later recycling took it back; a block is held for a pool exactly if a thread got it for that pool, out of a list or from the system, and nobody deallocated it since. |
| `PoolSteps.OwnedIsGiven` | Libs/nvwa-0.8.2/static_mem_pool.h:261-272 | The first half from any state that keeps the invariant. |
| `PoolSteps.HeldIsHandedOut` | Libs/nvwa-0.8.2/static_mem_pool.h:139-172 | The second half from any such state. |
| `PoolSteps.AllocSys` | Libs/nvwa-0.8.2/static_mem_pool.h:261-272 | The second critical section of `allocate` with the pool set, where no other thread runs in between: the caller gets the first answer of the system that is no failure, the pools are halved exactly if the first answer was one, and the steps of the section lead to a state that mirrors the pools and in which the block is held and owned. |
| `PoolSteps.RecycleAll` | Libs/nvwa-0.8.2/static_mem_pool.cpp:75-85 | Every pool keeps every second of its free blocks, and the pools mirror the state after one step of recycling for each. |
| `PoolSteps.TurnsHalve` | Libs/nvwa-0.8.2/static_mem_pool.cpp:75-85 | These steps keep the invariant, halve every list and take exactly the other halves out of the ledger. |
| `PoolSteps.SectionIsRun` | Libs/nvwa-0.8.2/static_mem_pool.h:261-272 | The section is a run of the transition system, with the block of the first successful answer held and owned at its end. |
| `PoolSteps.RecycleKeepsPlaces` | Libs/nvwa-0.8.2/static_mem_pool.h:235-259 | Recycling one pool while others run. |
| `PoolSteps.PutKeepsPlaces` | Libs/nvwa-0.8.2/static_mem_pool.h:172-179 | Returning a block, by whichever thread. |
| `PoolSteps.PopStep` | Libs/nvwa-0.8.2/static_mem_pool.h:156-164 | The first section of allocate on the chain of a pool is the step on its free list. |
| `PoolSteps.PutStep` | Libs/nvwa-0.8.2/static_mem_pool.h:172-179 | deallocate is the step that returns a block. |
| `PoolSteps.RecycleStep` | Libs/nvwa-0.8.2/static_mem_pool.h:235-259 | recycle is the step that recycles one pool, and the blocks it releases are those that leave the ledger. |
| `Polygon.IsPolygonConvex` | Src/MeshLoaders/MeshLoaderObj.cpp:390-433 | Up to three corners, or in both coordinates at most two sign changes round the whole cycle, although one pair is never compared. |
| `Polygon.MissedPairIsHarmless` | Src/MeshLoaders/MeshLoaderObj.cpp:405-432 | Sign changes round a cycle are even, so leaving one pair out cannot cross the threshold of 2. |
| `Polygon.TestIgnoresStart` | Src/MeshLoaders/MeshLoaderObj.cpp:390-433 | The same answer for every cyclic rotation of the list. |
| `Polygon.ConvexIsAccepted` | Src/MeshLoaders/MeshLoaderObj.cpp:386-433 | Every convex polygon is accepted, whichever way round it is listed, also with corners on straight sides. |
| `Convexity.TestIsExact` | Src/MeshLoaders/MeshLoaderObj.cpp:386-433 | For a polygon that turns strictly to one side at every corner the test answers yes exactly if the polygon is convex. |
| `Polygon.TestCountsCorners` | Src/MeshLoaders/MeshLoaderObj.cpp:386-433 | For four corners or more the answer is yes exactly if at most two corners turn between going right and not going right, and at most two between going up and not going up. |
| `Convexity.AcceptedIsConvex` | Src/MeshLoaders/MeshLoaderObj.cpp:386-433 | So an accepted polygon is strictly convex exactly if it turns to one side at every corner. |
| `Convexity.NoSecondRise` | Src/MeshLoaders/MeshLoaderObj.cpp:412-424 | If the directions of the edges change the half of the plane twice, none that comes after one on the right of the first edge leads to its left again. |
| `Convexity.EdgeOutside` | Src/MeshLoaders/MeshLoaderObj.cpp:386-433 | In a turning polygon that is accepted all other corners lie strictly on the inner side of every edge. |
| `Polygon.DentIsAccepted` | Src/MeshLoaders/MeshLoaderObj.cpp:386-433 | A polygon with a corner that turns inwards is accepted too: the test is necessary for convexity, not sufficient. |
| `Polygon.RightmostX` | Src/MeshLoaders/MeshLoaderObj.cpp:412-424 | Where a convex polygon stops moving to the right it has its rightmost corner. |
| `Polygon.ChangesAlternate` | Src/MeshLoaders/MeshLoaderObj.cpp:412-424 | Changes forwards and backwards alternate. |
| `Triangulation.Triangulate` | Src/MeshLoaders/MeshLoaderObjOld.cpp:532-598 | The triangles appended cut off, one after the other, a highest remaining vertex with its two nearest remaining ones, down to the last three. |
| `Triangulation.CutHighest` | Src/MeshLoaders/MeshLoaderObjOld.cpp:537-590 | One round of the loop. |
| `Triangulation.FindHighest` | Src/MeshLoaders/MeshLoaderObjOld.cpp:538-546 | A vertex with the largest y. |
| `Triangulation.FindTwoNearest` | Src/MeshLoaders/MeshLoaderObjOld.cpp:553-583 | Two different vertices; no other is nearer than either of them. |
| `Triangulation.TrianglesCover` | Src/MeshLoaders/MeshLoaderObjOld.cpp:532-598 | n vertices give exactly n - 2 triangles; these cover every vertex and use no other. |
| `Triangulation.TrianglesDescend` | Src/MeshLoaders/MeshLoaderObjOld.cpp:532-598 | The first vertex of a triangle is at least as high as every vertex that a later triangle uses, and none of these that is not a corner of it is nearer than its two others. |
| `Triangulation.DistanceIsMetric` | Src/MeshLoaders/MeshLoaderObjOld.cpp:553-586 | The distance is zero exactly between equal points, never negative, and the same both ways. |
| `Triangulation.DistanceAdds` | Src/MeshLoaders/MeshLoaderObjOld.cpp:553-586 | It is additive over every point of the box that two points span. |
| `Triangulation.DistanceAlongAxes` | Src/MeshLoaders/MeshLoaderObjOld.cpp:553-586 | Along each axis it is the length on the line. With the two facts above this determines it. |
| `Triangulation.TrianglesHaveThreeCorners` | Src/MeshLoaders/MeshLoaderObjOld.cpp:532-598 | Distinct vertices give triangles with three distinct corners. |
| `RenderVisitor.GLMatrixStack.constructor` | Src/Include/GLMatrixStack.h:44-50 | One identity, no error. |
| `RenderVisitor.GLMatrixStack.PushMatrix` | Src/Include/GLMatrixStack.h:84-91 | The top is doubled; at the full depth only the error is set; one below it the guard would let the copy go behind the array. |
| `RenderVisitor.GLMatrixStack.PopMatrix` | Src/Include/GLMatrixStack.h:93-98 | The top goes; on the last matrix only the error is set. |
| `RenderVisitor.GLMatrixStack.MultMatrix` | Src/Include/GLMatrixStack.h:72-76 | The top is multiplied from the right. |
| `RenderVisitor.GLMatrixStack.LoadMatrix` | Src/Include/GLMatrixStack.h:62-64 | The top is replaced. |
| `RenderVisitor.Visitor.constructor` | Src/Graph/RenderVisitorOpenGL1.cpp:6-12 | Two stacks with the identity. |
| `RenderVisitor.Visitor.Accept` | Src/Graph/RenderVisitorOpenGL1.cpp:60-229 | With room for the nested Transform and Camera nodes, any tree leaves both stacks and their error states as they were and draws exactly what Render says. |
| `RenderVisitor.Visitor.TraverseChildren` | Src/Graph/RenderVisitorOpenGL1.cpp:60-67 | The same for a list of children, in order. |
| `RenderVisitor.Visitor.VisitTransform` | Src/Graph/RenderVisitorOpenGL1.cpp:210-223 | Push, multiply, load, children, pop. |
| `RenderVisitor.Visitor.VisitCamera` | Src/Graph/RenderVisitorOpenGL1.cpp:116-152 | Push and load both, children, pop both and load again. |
| `RenderVisitor.Visitor.VisitGeometry` | Src/Graph/RenderVisitorOpenGL1.cpp:172-205 | Drawn once if visible, with the matrices on top. |
| `RenderVisitor.WalkStaysInside` | Src/Include/GLMatrixStack.h:84-98 | With the stacks as written a visit stays inside their arrays exactly if the nested Transform and Camera nodes fit above the current pointers, and then it puts both pointers back. |
| `RenderVisitor.RoomIsExact` | Src/Graph/RenderVisitorOpenGL1.cpp:116-223 | What Accept asks for is necessary and sufficient for that. |
| `RenderVisitor.ChainsReachTheEnd` | Src/Include/GLMatrixStack.h:84-91 | From new stacks of depth d, k nested Transforms stay inside exactly if k < d. |
| `RenderVisitor.RenderShows` | Src/Graph/RenderVisitorOpenGL1.cpp:60-229 | At every visible geometry the model-view top is the view matrix of the nearest Camera, else the entry top, times the Transforms below it in root-to-leaf order; the projection is that of the nearest Camera. |
| `RenderVisitor.SceneShows` | Src/Graph/RenderVisitorOpenGL1.cpp:60-229 | The same for a whole scene, every visible geometry once and in order. |
| `RenderVisitor.ProductAppliesUpwards` | Src/Include/math3d.h:445-451 | Applying the accumulated matrix to a vertex is applying the matrices one after the other from leaf to root. |
| `RenderVisitor.AccumulatedAppliesUpwards` | Src/Include/math3d.h:445-451 | The same, starting from the nearest Camera. |
| `RenderVisitor.DrawnAsAccumulated` | Src/Graph/RenderVisitorOpenGL1.cpp:210-223 | VisitTransform does not load the old matrix again: a scene is drawn with its accumulated matrices, for all values of its matrices, exactly when no visible geometry follows a Transform without a Camera or another Transform in between. |
| `RenderVisitor.NeverStaleIsCurrent` | Src/Graph/RenderVisitorOpenGL1.cpp:116-223 | Under that condition every draw uses the matrix on top of the stack. |
| `RenderVisitor.DoubledShowsStale` | Src/Graph/RenderVisitorOpenGL1.cpp:210-223 | With doubling transforms every stale matrix shows. |
| `SetAssign.SetAssignUnion` | Libs/nvwa-0.8.2/set_assign.h:44-97 | The destination becomes the merge. |
| `SetAssign.SetAssignDifference` | Libs/nvwa-0.8.2/set_assign.h:99-142 | The destination loses what the range matches. |
| `SetAssign.UnionCounts` | Libs/nvwa-0.8.2/set_assign.h:71-97 | For inputs sorted under a strict weak order, every class of equivalent elements has the larger of the two multiplicities. |
| `SetAssign.UnionClasses` | Libs/nvwa-0.8.2/set_assign.h:71-97 | Of the elements equivalent to a given one the union has all of the destination, and behind them those of the source from the number on that the destination has, in order. |
| `SetAssign.DifferenceClasses` | Libs/nvwa-0.8.2/set_assign.h:119-141 | Of equivalent elements the difference has those of the destination from the number on that the source has, in order. |
| `SetAssign.DifferenceCounts` | Libs/nvwa-0.8.2/set_assign.h:121-142 | Every class keeps as many as the destination has more than the range. |
| `SetAssign.UnionIsSorted` | Libs/nvwa-0.8.2/set_assign.h:71-97 | The result is sorted. |
| `SetAssign.UnionKeepsAll` | Libs/nvwa-0.8.2/set_assign.h:71-97 | All elements of the destination stay, in their order. |
| `SetAssign.DifferenceKeepsOrder` | Libs/nvwa-0.8.2/set_assign.h:121-142 | The surviving elements keep their order. |
| `SetAssign.SubsequenceIsSorted` | Libs/nvwa-0.8.2/set_assign.h:121-142 | So the difference is sorted as well. |
| `SetAssign.SetsMerge` | Libs/nvwa-0.8.2/set_assign.h:44-142 | On sets the two are union and difference. |
| `SetAssign.CopyRest` | Libs/nvwa-0.8.2/set_assign.h:94-95 | What is left of the range goes to the end. |

## Left out

The demangler:

- TameNamesParse: sufficient, not necessary: it also rejects a sign inside an identifier, as in `_ZN3bin4nameE`.
  Whether a bad length is reached depends on the alternatives that are tried; for a single source name
  `SourceNameFaults` has the exact condition.
- Demangle: asks for a parse without faults, and so do the parsing functions below it that read source names: behind a
  fault the original need not end, as `EndlessName` shows, and a number beyond an int is a signed overflow.
- TextIsTerminated: sufficient, not necessary. Without its condition the NUL can be missing because nothing was
  printed at all (`NothingIsWritten`) or because an alternative that failed has written there (`TextIsNotTerminated`).
- DemangledText: for buffers of (n+1)(n+24) characters. That a smaller one shows the whole translation if it has not
  overflowed in the end is not stated: an alternative may overflow and take a separator back that did not fit, which
  writes a NUL in front of the cursor, and its flag is put back when it fails.
- SymbolsAreShown: the names leave out expressions in template arguments and array bounds, hexadecimal literals, string
  literals and discriminators of local names, reference temporaries, and the discriminators of internal names. The
  texts of operators, builtin types and standard names are looked up in the tables of the demangler.
- Equality with other demanglers.
- Runs behind a fault, apart from the source name itself and the loop of the prefix: the model ends there.
- The range of `int` for numbers whose value is never used: the model computes them without bound.
- Reads behind the last character of the buffer, which are possible after an overflow only (`PreviousIsInside`), count
  as NUL. `CopyLeavesBuffer` says exactly when one step makes them; that a whole run gets there is not proved.
- State.constructor: asks for a buffer of at least one character.
- AcceptedIsDerivable: derivations admit source names of length 0, which the code accepts although the BNF asks for a
  positive length; `LengthIsPositive` tells them apart.
- `Append` appears twice, for a string and for a stretch of the own output, where the source passes a pointer;
  `OneOrMore` takes a nonterminal instead of a function pointer.
- The input is a string without NUL, as a C string is.

Geometry and meshes:

- Rounding, overflow and NaN: all reals are exact.
- InvertMatrix44: a matrix with determinant zero is excluded, where the source divides by it.
- Normalize: dependent up and forward directions are excluded, where the source divides by zero.
- WorldToLocal: the same.
- AddTriangle: asks for three free slots and for normals of a length other than zero; `StaysInside` covers full
  batches.
- `sin`, `cos` and `sqrt` are given by their equations; the arguments `mag` and `angle` stand for their results.
- The coordinates that the generators compute: a surface is a parameter, the loops and counts are the source's.
- Compaction and drawing in `End`, and everything that calls OpenGL.
- The corner planes of the frustum and its visibility tests.
- BeginMesh: the capacity is at most 65536, so that an index cut to `GLushort` is the index.
- Fixed vectors of three floats are values here, so aliasing between them is not modelled.

The nvwa utilities:

- The popcount table has its 256 entries in sixteen rows of sixteen.
- Printing of leak reports, source positions, tail checks (off by default) and locks of the leak tracker; `size_t`
  does not wrap around; an error action ends the program, so the modelled call changes nothing.
- FreePointer: is given NULL, a live block, or a header without the magic number.
- FixedMemPool.Pool.Deallocate: is given a block that is out.
- A handler for bad allocations other than the default one in the fixed pool, and the alignment of its blocks.
- AllocSys: one thread alone; other threads in between are the business of the transition system, which has a step for
  each of its parts. The system's answers are parameters.
- Creation and destruction of the singletons, liveness and deadlock: the lock of the pool set is taken again while it
  is held; only safety is proved. Locks are the atomicity of the steps.
- Containers whose iterators move when an element is inserted or erased, such as vectors: the model is a linked list.

Polygons and rendering:

- Reading OBJ and material files, and the triangulation of concave polygons, which mixes positions and vertex numbers.
- `float` as the type of a position in the triangulation: positions are numbers.
- Accept: asks for room for the nested nodes, and PushMatrix not to be at the one place where the source writes behind
  its array; `WalkStaysInside` and `RoomIsExact` cover the rest.
- Light state, materials, shaders and the drawing of triangles; the projection matrix that OpenGL has loaded.
- Merging of render states, whose second loop walks the wrong set.
