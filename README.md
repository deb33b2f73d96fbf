# Pikelet syntax core in Dafny

This project is a Dafny model of the syntax core of Pikelet, a small
dependently typed language. Four parts are modelled:

- **Universe levels, level shifts and labels** (`syntax.dfy`, from
  `src/syntax/mod.rs`). These are `u32` wrappers with successor, addition
  and in-place addition, plus record labels with their derived order.
- **Locally-nameless variables** (`nameless.dfy`, from
  `nameless/src/var.rs`). This covers alpha-equivalence, closing a free
  name into a bound index and opening it again, and display.
- **Parser utilities** (`parse.dfy` with `pos.dfy` and `concrete.dfy`,
  from `src/syntax/parse/mod.rs`):
  - the span of a parse error;
  - the translation of the parser generator's errors;
  - the rendering of the expected-token list;
  - the reinterpretation of the left-hand side of `->` as a pi-type
    binder group.
- **The core language** (from `src/syntax/core.rs`):
  - the term, value and neutral syntax (`core_syntax.dfy`);
  - substitution on terms (`core_subst.dfy`);
  - the normal-form tests and the head/spine queries (`core_value.dfy`);
  - shifting of universe levels (`core_shift.dfy`);
  - reading values back into terms (`core_readback.dfy`).

`wrappers.dfy` holds `Option` and `Result`.

Operations that the source performs by mutation are modelled as methods
and proved equal to a specification function:

- `AddAssign` on levels and shifts;
- `close_at` and `open_at`;
- the name vector that `param_names` pushes onto;
- `shift_universes`, which rebuilds a value part by part.

Properties about several calls are stated as lemmas over those functions.

## Model

| member | source | states |
|---|---|---|
| Syntax.Succ | src/syntax/mod.rs:17-21 | the successor level is one more than the level (no `u32` overflow) |
| Syntax.SuccIsShiftByOne | src/syntax/mod.rs:18-20 | `succ` is the same as adding a shift of one, and strictly increases the level |
| Syntax.LevelFromU32 | src/syntax/mod.rs:23-27 | the level made from a `u32` has that number |
| Syntax.LevelFromU32RoundTrip | src/syntax/mod.rs:23-27 | converting a `u32` to a level keeps the number, and reading the number back gives the level |
| Syntax.LevelShiftFromU32 | src/syntax/mod.rs:39-43 | converting a `u32` to a shift keeps the number |
| Syntax.AddShifts | src/syntax/mod.rs:51-57 | adding shifts adds their amounts, when the sum fits in `u32` |
| Syntax.AddShiftsCommutative | src/syntax/mod.rs:51-57 | shift addition is commutative |
| Syntax.AddShiftsAssociative | src/syntax/mod.rs:51-57 | shift addition is associative |
| Syntax.ZeroShiftIsUnit | src/syntax/mod.rs:51-71 | the zero shift leaves levels and shifts unchanged |
| Syntax.LevelShiftPlace.AddAssign | src/syntax/mod.rs:59-63 | `+=` on a shift leaves the value `+` would compute |
| Syntax.ShiftLevel | src/syntax/mod.rs:65-71 | a level plus a shift is the sum of their amounts |
| Syntax.ShiftLevelTwice | src/syntax/mod.rs:65-71 | raising a level by `a` and then by `b` is raising it by `a + b` |
| Syntax.LevelPlace.AddAssign | src/syntax/mod.rs:73-77 | `+=` on a level leaves the value `+` would compute |
| Syntax.LabelFromString | src/syntax/mod.rs:85-89 | a label made from a string wraps that string |
| Syntax.CompareLabels | src/syntax/mod.rs:80-83 | the derived comparison of labels says `Equal` exactly when the labels are equal |
| Syntax.LabelOrderIsTotal | src/syntax/mod.rs:80-83 | the derived label order is antisymmetric and transitive |
| Nameless.AlphaEq | nameless/src/var.rs:14-22 | free against free compares names; bound against bound compares the `Named` parts; a free and a bound variable are never alpha-equivalent |
| Nameless.AlphaEqIsEquivalence | nameless/src/var.rs:14-22 | `alpha_eq` on variables is an equivalence whenever the component comparisons are |
| Nameless.Close | nameless/src/var.rs:27-32 | closing changes a variable exactly when it is the free variable `name`, which becomes bound at the index with its name kept |
| Nameless.Open | nameless/src/var.rs:34-39 | opening turns a variable bound at the index into the free variable `name`, and leaves every other variable unchanged |
| Nameless.OpenAfterClose | nameless/src/var.rs:27-39 | opening after closing gives back any free variable |
| Nameless.CloseAfterOpen | nameless/src/var.rs:27-39 | closing after opening rebinds a variable bound at the index, now under the name `name` |
| Nameless.CloseOpenIdempotent | nameless/src/var.rs:27-39 | closing twice or opening twice with the same arguments is the same as doing it once |
| Nameless.VarPlace.CloseAt | nameless/src/var.rs:27-32 | `close_at` overwrites the variable with its closed form |
| Nameless.VarPlace.OpenAt | nameless/src/var.rs:34-39 | `open_at` overwrites the variable with its opened form |
| Nameless.Display | nameless/src/var.rs:42-48 | the text starts with the variable's name; it is the name alone outside alternate mode and for a free variable; for a bound variable in alternate mode the rest is the index |
| Nameless.DisplayShowsIndexOnlyWhenAlternate | nameless/src/var.rs:42-48 | normal display prints only the name, so closing does not change it; alternate display of a bound variable prints the name followed by the index |
| Parse.ErrorSpan | src/syntax/parse/mod.rs:49-59 | a lexer error reports the lexer's span; an unexpected end of input reports the empty span at the end position; every other error reports its own span |
| Parse.FromLexerError | src/syntax/parse/mod.rs:122-126 | a lexer error becomes a `Lexer` parse error with the same span |
| Parse.EndOfInput | src/syntax/parse/mod.rs:68-74 | the end position is the byte length of the source whenever that length fits in 32 bits |
| Parse.FromLalrpop | src/syntax/parse/mod.rs:61-90 | user errors pass through; a missing token becomes an unexpected end of input at the end of the source; an unrecognised or extra token keeps its `lo .. hi` range, its converted token and the expected list |
| Parse.FromLalrpopSpan | src/syntax/parse/mod.rs:61-90 | the span of a translated error is the span of a user error, the empty span at the end of input, or the offending token's range |
| Parse.FormatExpected | src/syntax/parse/mod.rs:131-142 | the loop writes the tokens separated by ", ", with ", or " before the last one |
| Parse.ListWithOrShortLists | src/syntax/parse/mod.rs:131-142 | no tokens render as nothing, one as itself, two as "a, or b", three as "a, b, or c" |
| Concrete.TermSpan | src/syntax/parse/mod.rs:202 | a variable, parenthesised term or other leaf form reports its own span; an application, annotation or arrow covers the spans of both parts; a pi type runs from its start to the end of its body |
| Parse.ParamNames | src/syntax/parse/mod.rs:190-207 | on success there is one name per leaf of the application tree; the only error is `IdentifierExpectedInPiType`, at a span inside the binder group's span |
| Parse.ParamNamesByLeaves | src/syntax/parse/mod.rs:190-207 | `param_names` succeeds exactly when every leaf of the application tree is a variable, and then lists their spans and names left to right; otherwise it fails with the span of the first leaf that is not a variable |
| Parse.PushedNamesByLeaves | src/syntax/parse/mod.rs:190-207 | the names pushed before returning are those of the variable leaves before the first leaf that is not a variable |
| Parse.ParamNamesAreCompletePush | src/syntax/parse/mod.rs:190-207 | on success, the pushed names are exactly the returned list |
| Parse.NameBuffer.CollectParamNames | src/syntax/parse/mod.rs:190-207 | the recursion appends the pushed names to the buffer, succeeds exactly when `ParamNames` does, and returns the same error |
| Parse.ReparsePiType | src/syntax/parse/mod.rs:183-226 | the result is an error exactly when the binder is a parenthesised annotation whose parameters are not all variables, and the error is then the one from `param_names` wrapped as a user error; otherwise it is the arrow with the binder unchanged as its domain, or a pi type that starts where the span starts and keeps the body |
| Parse.ReparsePiTypeHack | src/syntax/parse/mod.rs:183-226 | the imperative reinterpretation gives the same result as the specification `ReparsePiType` |
| Parse.ReparseUnparenthesised | src/syntax/parse/mod.rs:224 | a binder that is not in parentheses becomes the domain of a plain arrow |
| Parse.ReparseParensWithoutAnn | src/syntax/parse/mod.rs:218-221 | a parenthesised term that is not an annotation is re-wrapped unchanged and becomes the domain of an arrow |
| Parse.ReparseBinderGroup | src/syntax/parse/mod.rs:209-217 | `(x y z : A) -> B` becomes a pi type that starts where the whole span starts, binding the variables' spans and names in order |
| Parse.ReparseBadBinder | src/syntax/parse/mod.rs:190-217 | a binder group with a leaf that is not a variable fails with `IdentifierExpectedInPiType` at that leaf's span, and translating the error keeps both |
| Parse.PiBadIdentExample | src/syntax/parse/mod.rs:234-244 | `((x : Type) : Type) -> Type` is rejected with the span from byte 1 to byte 11 |
| CoreSubst.FirstMatch | src/syntax/core.rs:180 | the position of the first mapping whose name equals the variable; no earlier mapping matches |
| CoreSubst.Substs | src/syntax/core.rs:174-267 | every form except a variable keeps its constructor, binders, labels, extern name, case patterns and numbers of fields, clauses and elements |
| CoreSubst.SubstsVar | src/syntax/core.rs:179-182 | a variable is replaced by the term of the first mapping for it, and left unchanged when no mapping matches; a bound variable is never replaced |
| CoreSubst.SubstsUnmentioned | src/syntax/core.rs:174-267 | substituting for names that do not occur in a term gives back the term |
| CoreSubst.SubstsEmpty | src/syntax/core.rs:174-267 | substituting with no mappings gives back the term |
| CoreSubst.SubstsKeepsUnmapped | src/syntax/core.rs:174-267 | a free variable that no mapping is for still occurs after the substitution, wherever it occurred, even when other names are replaced |
| CoreSubst.SubstsEliminates | src/syntax/core.rs:174-267 | after substituting for `x` with replacement terms that do not mention `x`, the result no longer mentions `x` |
| CoreValue.IsWhnf | src/syntax/core.rs:335-346 | a value is in weak head normal form exactly when it is not neutral |
| CoreValue.IsNf | src/syntax/core.rs:349-363 | a value in normal form is in weak head normal form |
| CoreValue.HeadApp | src/syntax/core.rs:365-372 | there is a head and spine exactly for a neutral value headed by a `Head`, and they rebuild the value |
| CoreValue.FreeVarApp | src/syntax/core.rs:374-379 | there is a result exactly when the head is a free variable, and the variable, shift and spine rebuild the value |
| CoreValue.VarValue | src/syntax/core.rs:325-327 | `Value::var` is a variable head with an empty spine; it has a free-variable head exactly when the variable is free; it is in neither normal form |
| CoreValue.HeadAppNotNormal | src/syntax/core.rs:335-372 | a value with an applied head is in neither normal form |
| CoreShift.ShiftUniverses | src/syntax/core.rs:395-418 | the in-place shift computes `Shifted`: every reachable universe level raised by the shift, and nothing else changed |
| CoreShift.ShiftNeutralUniverses | src/syntax/core.rs:493-515 | the in-place shift of a neutral value computes `ShiftedNeutral`: variable heads keep their own shift, and case patterns are left alone |
| CoreShift.Shifted | src/syntax/core.rs:395-418 | a universe is raised by the shift; every other form keeps its constructor, literal, binders, labels and numbers of fields, elements and arguments |
| CoreShift.ShiftedNeutral | src/syntax/core.rs:493-515 | a variable head is unchanged; every other neutral form keeps its constructor, extern name, label and case patterns |
| CoreShift.ShiftRaisesLevels | src/syntax/core.rs:395-418 | the reachable universe levels of the shifted value, listed in visiting order, are those of the original, each raised by the shift, with none added or dropped |
| CoreShift.NeutralShiftRaisesLevels | src/syntax/core.rs:493-515 | the same for a neutral value: extern types, `if` branches and clause bodies are raised, nothing else |
| CoreShift.ShiftKeepsErasure | src/syntax/core.rs:395-418 | with every universe level set to zero, the shifted value and the original are equal: the shift changes levels and nothing else |
| CoreShift.NeutralShiftKeepsErasure | src/syntax/core.rs:493-515 | the same for a neutral value, whose variable heads and case patterns are therefore untouched |
| CoreShift.FitsByLevels | src/syntax/core.rs:395-418 | the shift can be done without `u32` overflow exactly when every reachable level plus the shift stays below 2^32 |
| CoreShift.NeutralFitsByLevels | src/syntax/core.rs:493-515 | the same for a neutral value |
| CoreShift.ShiftZero | src/syntax/core.rs:395-418 | shifting by zero always fits and changes nothing |
| CoreShift.ShiftTwice | src/syntax/core.rs:395-418 | shifting by `a` and then by `b` is shifting once by `a + b`, and both steps fit whenever the combined shift does |
| CoreShift.ShiftPreservesNormalForms | src/syntax/core.rs:395-418 | shifting keeps a value in weak head normal form and in normal form exactly when it was |
| CoreShift.ShiftFreeVarApp | src/syntax/core.rs:493-500 | a stuck application of a free variable keeps its variable and shift, and only its arguments are shifted |
| CoreReadBack.ApplySpine | src/syntax/core.rs:599-603 | the fold that applies a head to a spine can be undone: when the head is no application, splitting the chain recovers the head and the arguments; an empty spine leaves the head |
| CoreReadBack.ApplySpineUnapply | src/syntax/core.rs:599-603 | every term is its innermost head applied to its arguments |
| CoreReadBack.ReadBack | src/syntax/core.rs:546-606 | universes and literals read back as themselves; other values that are not neutral keep their constructor, binder and labels; only a neutral value reads back as an application, variable, extern, `if`, projection or `case` |
| CoreReadBack.ReadBackNeutral | src/syntax/core.rs:614-635 | a neutral value never reads back as an application, and keeps its label and case patterns |
| CoreReadBack.ReadBackHead | src/syntax/core.rs:643-650 | a variable head reads back as the variable with its shift, and an extern head as an extern with its name |
| CoreReadBack.ReadBackNeutralValue | src/syntax/core.rs:599-603 | a neutral value reads back as its neutral part applied to the read-back of its spine, and both can be split off again |
| CoreReadBack.FreeVarAppReadBack | src/syntax/core.rs:374-379 | the read-back is headed by a free variable exactly when `free_var_app` finds one, and its arguments are then the read-back of that spine |
| CoreReadBack.ReadBackNormal | src/syntax/core.rs:349-363 | `is_nf` holds exactly of the values whose read-back contains no variable, application or elimination |
| CoreReadBack.SubstsNormalValue | src/syntax/core.rs:329-332 | substituting into the read-back of a value in normal form changes nothing |
| CoreReadBack.ReadBackInjective | src/syntax/core.rs:546-650 | different values read back as different terms |

## Left out

- The generated parser, the lexer and the `FromStr` entry points are not
  modelled; errors from the parser generator are inputs to `FromLalrpop`.
- `Parse.FromLalrpop`: the `InvalidToken` case, which the source marks
  unreachable, is excluded by a precondition.
- `to_diagnostic` builds a message string and a diagnostic around
  `ParseError::span`. Only the span, `ErrorSpan`, is modelled.
- The concrete syntax tree (`src/syntax/concrete.rs`) is not part of this
  model. `Concrete.Term` keeps only the forms the pi-type reinterpretation
  inspects or builds, plus `Other(span)` for everything else.
- `Concrete.TermSpan`: the source of `Term::span` is not among the files
  modelled. `Concrete.TermSpan` assumes that a compound form spans the
  smallest range covering its parts. The covering clause of
  `Parse.ParamNames` rests on that assumption.
- `Display` for values, terms, `Level`, `LevelShift`, `Label` and
  `ExpectedTokens`:
  - Pretty-printing of values and terms is not modelled.
  - Level, shift and label display only writes the number or string.
  - The formatter is modelled by the text it receives, and formatter
    errors are not modelled.
- `Syntax.Succ`, `Syntax.AddShifts`, `Syntax.ShiftLevel`,
  `Syntax.LevelShiftPlace.AddAssign` and `Syntax.LevelPlace.AddAssign`
  require that the sum fits in `u32`. The source panics on overflow in a
  debug build and wraps in a release build. The model covers only the
  non-overflowing case.
- `CoreShift.ShiftUniverses` and `CoreShift.ShiftNeutralUniverses` require
  `Fits` (`FitsNeutral` for a neutral value): every reachable level stays below 2^32 after the shift
  (`CoreShift.FitsByLevels`). Otherwise a debug build panics partway
  through, with part of the value already shifted, and a release build
  wraps each overflowing level and finishes. Neither outcome is modelled.
- `CoreShift.ShiftUniverses` rebuilds the value and returns it. The
  source shares subterms through `Rc` and copies them on write with
  `Rc::make_mut`. That sharing is not observable in the result and is not
  modelled.
- `CoreShift.ShiftNeutralUniverses`: shifting inside case patterns is
  left out, as in the source.
- The moniker library's scopes, binders and free-name generation are
  abstracted:
  - Binders are plain data.
  - `Nameless.AlphaEq` takes the alpha-equivalence of names and of
    `Named` as parameters.
  - `Named::alpha_eq` itself is not part of this model.
- Literals keep their value but not their machine width. Floating-point
  literals are opaque bit patterns. No operation here inspects either.
- `Value::substs` reads the value back and then substitutes in the term.
  It is modelled only through `CoreReadBack.SubstsNormalValue`, for values
  in normal form.
- `Parse.EndOfInput`: `src.len() as RawIndex` truncates to 32 bits. The
  model writes the truncation out. The source works on a `&str`, modelled
  as its UTF-8 bytes.
- `Term::App` is binary and `From<&Value>` (src/syntax/core.rs:599-603)
  folds a spine one argument at a time; the model does the same.
- `Parse.FromLalrpop` copies a token's `lo` and `hi` into the span as the
  parser generator gives them. The invariant `lo <= hi` of a span
  (`Pos.Span`) and the handling of reversed ends by `Span::new` (in the
  `source` crate) are not modelled.
