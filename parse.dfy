/**
 * Parser utilities (src/syntax/parse/mod.rs): the parse error type and its
 * spans, the translation of the parser generator's errors, the rendering
 * of a list of expected tokens, and the after-the-fact reinterpretation of
 * the left side of `->` as either the binders of a dependent function type
 * or the domain of a plain arrow.
 */
module Parse {
  import opened Wrappers
  import opened Pos
  import opened Concrete

  /** A byte of the UTF-8 source text. */
  newtype byte = x: int | 0 <= x < 256

  newtype u64 = x: int | 0 <= x < 0x1_0000_0000_0000_0000

  /** An error reported by the lexer (src/syntax/parse/lexer.rs is not part of this model). */
  datatype LexerError = LexerError(span: Span, description: string)

  /** A token as reported in an error, `Token<String>`. */
  datatype Token = Token(text: string)

  /** The tokens the parser would have accepted. */
  datatype ExpectedTokens = ExpectedTokens(tokens: seq<string>)

  datatype ParseError =
    | Lexer(lexerError: LexerError)
    | IdentifierExpectedInPiType(span: Span)
    | IntegerLiteralOverflow(span: Span, value: u64)
    | UnknownReplCommand(span: Span, command: string)
    | UnexpectedEof(end: BytePos, expected: ExpectedTokens)
    | UnexpectedToken(span: Span, token: Token, expected: ExpectedTokens)
    | ExtraToken(span: Span, token: Token)

  /** The error type of the generated parser, with locations `L`, tokens `T` and user errors `E`. */
  datatype LalrpopError<L, T, E> =
    | User(error: E)
    | InvalidToken(location: L)
    | UnrecognizedToken(found: Option<(L, T, L)>, expected: seq<string>)
    | ExtraToken(token: (L, T, L))

  /**
   * `ParseError::span`: the span of source code the error came from. An
   * unexpected end of input has the empty span at the end position.
   */
  function ErrorSpan(e: ParseError): (s: Span)
    ensures e.UnexpectedEof? ==> s.lo == e.end && s.hi == e.end
    ensures e.Lexer? ==> s == e.lexerError.span
    ensures !e.Lexer? && !e.UnexpectedEof? ==> s == e.span
  {
    match e
    case Lexer(err) => err.span
    case IdentifierExpectedInPiType(span) => span
    case IntegerLiteralOverflow(span, _) => span
    case UnknownReplCommand(span, _) => span
    case UnexpectedToken(span, _, _) => span
    case ExtraToken(span, _) => span
    case UnexpectedEof(end, _) => Span(end, end)
  }

  /** `From<LexerError> for ParseError`. */
  function FromLexerError(err: LexerError): (e: ParseError)
    ensures e.Lexer? && ErrorSpan(e) == err.span
  {
    Lexer(err)
  }

  /** `src.len() as RawIndex`: the byte length of the source, truncated to 32 bits by the cast. */
  function EndOfInput(src: seq<byte>): (p: BytePos)
    ensures |src| < 0x1_0000_0000 ==> p.offset as int == |src|
  {
    BytePos((|src| % 0x1_0000_0000) as RawIndex)
  }

  /**
   * `ParseError::from_lalrpop`. A user error is passed through; a missing
   * token becomes an unexpected end of input at the end of the source; an
   * unrecognised or extra token keeps the range `lo .. hi` where it was
   * found. The parser never reports an invalid token (the lexer is a
   * custom one), which the source marks `unreachable!()`.
   */
  function FromLalrpop<T>(src: seq<byte>, err: LalrpopError<BytePos, T, ParseError>,
                          into: T -> Token): (e: ParseError)
    requires !err.InvalidToken?
    ensures err.User? ==> e == err.error
    ensures err.UnrecognizedToken? && err.found.None? ==>
      e == UnexpectedEof(EndOfInput(src), ExpectedTokens(err.expected))
    ensures err.UnrecognizedToken? && err.found.Some? ==>
      e.UnexpectedToken? && e.span == Span(err.found.value.0, err.found.value.2)
      && e.token == into(err.found.value.1) && e.expected.tokens == err.expected
    ensures err.ExtraToken? ==>
      e.ExtraToken? && e.span == Span(err.token.0, err.token.2) && e.token == into(err.token.1)
  {
    match err
    case User(error) => error
    case UnrecognizedToken(None, expected) =>
      UnexpectedEof(EndOfInput(src), ExpectedTokens(expected))
    case UnrecognizedToken(Some((lo, token, hi)), expected) =>
      UnexpectedToken(Span(lo, hi), into(token), ExpectedTokens(expected))
    case ExtraToken((lo, token, hi)) =>
      ParseError.ExtraToken(Span(lo, hi), into(token))
  }

  /**
   * The span reported for a translated error: the token's own range, or
   * the empty range at the end of the source when input ran out.
   */
  lemma FromLalrpopSpan<T>(src: seq<byte>, err: LalrpopError<BytePos, T, ParseError>, into: T -> Token)
    requires !err.InvalidToken?
    ensures err.User? ==> ErrorSpan(FromLalrpop(src, err, into)) == ErrorSpan(err.error)
    ensures err.UnrecognizedToken? && err.found.None? ==>
      ErrorSpan(FromLalrpop(src, err, into)) == Span(EndOfInput(src), EndOfInput(src))
    ensures err.UnrecognizedToken? && err.found.Some? ==>
      ErrorSpan(FromLalrpop(src, err, into)) == Span(err.found.value.0, err.found.value.2)
    ensures err.ExtraToken? ==>
      ErrorSpan(FromLalrpop(src, err, into)) == Span(err.token.0, err.token.2)
  {
  }

  // ---------------------------------------------------------------------
  // Rendering the expected tokens

  /** The items separated by `sep`. */
  function Join(items: seq<string>, sep: string): string
  {
    if |items| == 0 then ""
    else if |items| == 1 then items[0]
    else Join(items[..|items| - 1], sep) + sep + items[|items| - 1]
  }

  /** "a", "a, or b", "a, b, or c": a comma list whose last item is introduced by ", or ". */
  function ListWithOr(items: seq<string>): string
  {
    if |items| <= 1 then Join(items, ", ")
    else Join(items[..|items| - 1], ", ") + ", or " + items[|items| - 1]
  }

  /**
   * `Display for ExpectedTokens`: the formatter is modelled by the text
   * written to it, which the loop extends token by token.
   */
  method FormatExpected(expected: ExpectedTokens) returns (out: string)
    ensures out == ListWithOr(expected.tokens)
  {
    var tokens := expected.tokens;
    out := "";
    for i := 0 to |tokens|
      invariant i < |tokens| ==> out == Join(tokens[..i], ", ")
      invariant i == |tokens| ==> out == ListWithOr(tokens)
    {
      if i == 0 {
        out := out + tokens[i];
      } else if i < |tokens| - 1 {
        out := out + ", " + tokens[i];
      } else {
        out := out + ", or " + tokens[i];
      }
      assert tokens[..i + 1][..i] == tokens[..i];
    }
  }

  /** No tokens render as nothing, one token as itself, two as "a, or b". */
  lemma ListWithOrShortLists(a: string, b: string, c: string)
    ensures ListWithOr([]) == ""
    ensures ListWithOr([a]) == a
    ensures ListWithOr([a, b]) == a + ", or " + b
    ensures ListWithOr([a, b, c]) == a + ", " + b + ", or " + c
  {
    assert [a, b, c][..2] == [a, b];
    assert [a, b][..1] == [a];
  }

  // ---------------------------------------------------------------------
  // Reinterpreting the left side of `->`

  /**
   * The leaves of an application tree, left to right: a term that is not
   * an application is its own single leaf.
   */
  function Leaves(t: Term): (leaves: seq<Term>)
    ensures |leaves| >= 1
    ensures forall i :: 0 <= i < |leaves| ==> !leaves[i].App?
    ensures !t.App? ==> leaves == [t]
  {
    if t.App? then Leaves(t.head) + Leaves(t.arg) else [t]
  }

  /** The number of leading variables. */
  function VarRun(ts: seq<Term>): (k: nat)
    ensures k <= |ts|
    ensures forall i :: 0 <= i < k ==> ts[i].Var?
    ensures k < |ts| ==> !ts[k].Var?
  {
    if |ts| == 0 || !ts[0].Var? then 0 else 1 + VarRun(ts[1..])
  }

  /** The (span, name) pairs of a run of variables. */
  function NamesOf(ts: seq<Term>): (names: seq<(Span, string)>)
    requires forall i :: 0 <= i < |ts| ==> ts[i].Var?
    ensures |names| == |ts|
    ensures forall i :: 0 <= i < |ts| ==> names[i] == (ts[i].span, ts[i].name)
  {
    seq(|ts|, i requires 0 <= i < |ts| => (ts[i].span, ts[i].name))
  }

  /**
   * `param_names`, as a value: the names of the parameters written before
   * `:` in a binder group, or an error at the first leaf that is not a
   * variable.
   */
  function ParamNames(t: Term): (r: Result<seq<(Span, string)>, ParseError>)
    ensures r.Ok? ==> |r.value| == |Leaves(t)|
    ensures r.Err? ==> r.error.IdentifierExpectedInPiType? && Covers(TermSpan(t), r.error.span)
  {
    match t
    case Var(span, name) => Ok([(span, name)])
    case App(f, a) =>
      (match ParamNames(f)
       case Err(e) => Err(e)
       case Ok(xs) =>
         match ParamNames(a)
         case Err(e) => Err(e)
         case Ok(ys) => Ok(xs + ys))
    case _ => Err(IdentifierExpectedInPiType(TermSpan(t)))
  }

  lemma {:induction false} VarRunAppend(xs: seq<Term>, ys: seq<Term>)
    ensures VarRun(xs + ys) == if VarRun(xs) < |xs| then VarRun(xs) else |xs| + VarRun(ys)
  {
    if |xs| == 0 {
      assert xs + ys == ys;
    } else if xs[0].Var? {
      assert (xs + ys)[1..] == xs[1..] + ys;
      VarRunAppend(xs[1..], ys);
    } else {
      assert (xs + ys)[0] == xs[0];
    }
  }

  /**
   * `ParamNames` in terms of the leaves: when every leaf is a variable it
   * lists their spans and names in order, otherwise it reports the span of
   * the first leaf that is not.
   */
  lemma {:induction false} ParamNamesByLeaves(t: Term)
    ensures var ls := Leaves(t);
      if VarRun(ls) == |ls| then ParamNames(t) == Ok(NamesOf(ls))
      else ParamNames(t) == Err(IdentifierExpectedInPiType(TermSpan(ls[VarRun(ls)])))
  {
    match t
    case App(f, a) =>
      ParamNamesByLeaves(f);
      ParamNamesByLeaves(a);
      ParamNamesApp(f, a);
    case Var(span, name) =>
      assert VarRun([t]) == 1 + VarRun([]);
      assert NamesOf([t]) == [(span, name)];
    case _ =>
      assert VarRun([t]) == 0;
  }

  /** The step of `ParamNamesByLeaves` for an application, from the facts about its two sides. */
  lemma ParamNamesApp(f: Term, a: Term)
    requires var lf := Leaves(f);
      if VarRun(lf) == |lf| then ParamNames(f) == Ok(NamesOf(lf))
      else ParamNames(f) == Err(IdentifierExpectedInPiType(TermSpan(lf[VarRun(lf)])))
    requires var la := Leaves(a);
      if VarRun(la) == |la| then ParamNames(a) == Ok(NamesOf(la))
      else ParamNames(a) == Err(IdentifierExpectedInPiType(TermSpan(la[VarRun(la)])))
    ensures var ls := Leaves(App(f, a));
      if VarRun(ls) == |ls| then ParamNames(App(f, a)) == Ok(NamesOf(ls))
      else ParamNames(App(f, a)) == Err(IdentifierExpectedInPiType(TermSpan(ls[VarRun(ls)])))
  {
    if VarRun(Leaves(f)) < |Leaves(f)| {
      LeftFails(f, a);
    } else if VarRun(Leaves(a)) < |Leaves(a)| {
      RightFails(f, a);
    } else {
      BothSucceed(f, a);
    }
  }

  lemma LeftFails(f: Term, a: Term)
    requires VarRun(Leaves(f)) < |Leaves(f)|
    ensures ParamNames(f).Err? ==> ParamNames(App(f, a)) == ParamNames(f)
    ensures VarRun(Leaves(App(f, a))) == VarRun(Leaves(f))
    ensures Leaves(App(f, a))[VarRun(Leaves(f))] == Leaves(f)[VarRun(Leaves(f))]
  {
    VarRunAppend(Leaves(f), Leaves(a));
  }

  lemma RightFails(f: Term, a: Term)
    requires VarRun(Leaves(f)) == |Leaves(f)| && VarRun(Leaves(a)) < |Leaves(a)|
    ensures ParamNames(f).Ok? && ParamNames(a).Err? ==> ParamNames(App(f, a)) == ParamNames(a)
    ensures VarRun(Leaves(App(f, a))) == |Leaves(f)| + VarRun(Leaves(a))
    ensures Leaves(App(f, a))[|Leaves(f)| + VarRun(Leaves(a))] == Leaves(a)[VarRun(Leaves(a))]
  {
    VarRunAppend(Leaves(f), Leaves(a));
  }

  lemma BothSucceed(f: Term, a: Term)
    requires VarRun(Leaves(f)) == |Leaves(f)| && VarRun(Leaves(a)) == |Leaves(a)|
    ensures ParamNames(f).Ok? && ParamNames(a).Ok? ==>
      ParamNames(App(f, a)) == Ok(ParamNames(f).value + ParamNames(a).value)
    ensures VarRun(Leaves(App(f, a))) == |Leaves(App(f, a))|
    ensures NamesOf(Leaves(App(f, a))) == NamesOf(Leaves(f)) + NamesOf(Leaves(a))
  {
    VarRunAppend(Leaves(f), Leaves(a));
  }

  /** The names `param_names` has pushed by the time it returns, whether or not it fails. */
  function PushedNames(t: Term): seq<(Span, string)>
  {
    match t
    case Var(span, name) => [(span, name)]
    case App(f, a) => if ParamNames(f).Err? then PushedNames(f) else PushedNames(f) + PushedNames(a)
    case _ => []
  }

  /** The names pushed are those of the variable leaves before the first leaf that is not a variable. */
  lemma {:induction false} PushedNamesByLeaves(t: Term)
    ensures PushedNames(t) == NamesOf(Leaves(t)[..VarRun(Leaves(t))])
  {
    match t
    case App(f, a) =>
      PushedNamesByLeaves(f);
      PushedNamesByLeaves(a);
      ParamNamesByLeaves(f);
      PushedNamesApp(Leaves(f), Leaves(a));
    case Var(span, name) =>
      assert VarRun([t]) == 1 + VarRun([]);
      assert NamesOf([t][..1]) == [(span, name)];
    case _ =>
      assert VarRun([t]) == 0;
  }

  /** How the run of leading variables of two concatenated leaf lists splits. */
  lemma PushedNamesApp(lf: seq<Term>, la: seq<Term>)
    ensures VarRun(lf) < |lf| ==>
      NamesOf((lf + la)[..VarRun(lf + la)]) == NamesOf(lf[..VarRun(lf)])
    ensures VarRun(lf) == |lf| ==>
      NamesOf((lf + la)[..VarRun(lf + la)]) == NamesOf(lf[..VarRun(lf)]) + NamesOf(la[..VarRun(la)])
  {
    VarRunAppend(lf, la);
    if VarRun(lf) < |lf| {
      assert (lf + la)[..VarRun(lf)] == lf[..VarRun(lf)];
    } else {
      assert lf[..VarRun(lf)] == lf;
      assert (lf + la)[..|lf| + VarRun(la)] == lf + la[..VarRun(la)];
    }
  }

  /** When `param_names` succeeds, what it pushed is exactly the list `ParamNames` returns. */
  lemma {:induction false} ParamNamesAreCompletePush(t: Term)
    requires ParamNames(t).Ok?
    ensures ParamNames(t).value == PushedNames(t)
  {
    match t
    case App(f, a) =>
      ParamNamesAreCompletePush(f);
      ParamNamesAreCompletePush(a);
    case _ =>
  }

  /** `reparse_pi_type_hack`, as a value. */
  function ReparsePiType(span: Span, binder: Term, body: Term)
    : (r: Result<Term, LalrpopError<BytePos, Token, ParseError>>)
    ensures r.Err? <==> binder.Parens? && binder.inner.Ann? && ParamNames(binder.inner.term).Err?
    ensures r.Err? ==> r.error == User(ParamNames(binder.inner.term).error)
    ensures r.Ok? ==> r.value == Arrow(binder, body)
                      || (r.value.Pi? && r.value.lo == span.lo && r.value.body == body)
  {
    match binder
    case Parens(parenSpan, inner) =>
      (match inner
       case Ann(params, ann) =>
         (match ParamNames(params)
          case Err(e) => Err(User(e))
          case Ok(names) => Ok(Pi(span.lo, (names, ann), body)))
       case _ => Ok(Arrow(Parens(parenSpan, inner), body)))
    case _ => Ok(Arrow(binder, body))
  }

  /** The vector that `param_names` pushes onto. */
  class NameBuffer {
    var names: seq<(Span, string)>

    constructor ()
      ensures names == []
    {
      names := [];
    }

    /**
     * `param_names`: pushes the span and name of each variable leaf, left
     * to right, and stops with the error of `ParamNames` at the first other
     * leaf, leaving the names pushed before it.
     */
    method CollectParamNames(t: Term) returns (r: Result<(), ParseError>)
      modifies this
      decreases t
      ensures names == old(names) + PushedNames(t)
      ensures r.Ok? <==> ParamNames(t).Ok?
      ensures r.Err? ==> r.error == ParamNames(t).error
    {
      match t {
        case Var(span, name) =>
          names := names + [(span, name)];
          r := Ok(());
        case App(f, a) =>
          r := CollectParamNames(f);
          if r.Err? {
            return;
          }
          r := CollectParamNames(a);
        case _ =>
          r := Err(IdentifierExpectedInPiType(TermSpan(t)));
      }
    }
  }

  /**
   * `reparse_pi_type_hack`: a parenthesised annotation whose left side is
   * an application of variables becomes a pi type over those names;
   * anything else becomes a non-dependent arrow.
   */
  method ReparsePiTypeHack(span: Span, binder: Term, body: Term)
    returns (r: Result<Term, LalrpopError<BytePos, Token, ParseError>>)
    ensures r == ReparsePiType(span, binder, body)
  {
    match binder {
      case Parens(parenSpan, inner) =>
        match inner {
          case Ann(params, ann) =>
            var buffer := new NameBuffer();
            var result := buffer.CollectParamNames(params);
            if result.Err? {
              r := Err(User(result.error));
              return;
            }
            ParamNamesAreCompletePush(params);
            assert buffer.names == PushedNames(params);
            r := Ok(Pi(span.lo, (buffer.names, ann), body));
          case _ =>
            r := Ok(Arrow(Parens(parenSpan, inner), body));
        }
      case _ =>
        r := Ok(Arrow(binder, body));
    }
  }

  /** A binder that is not parenthesised is the domain of a plain arrow, unchanged. */
  lemma ReparseUnparenthesised(span: Span, binder: Term, body: Term)
    requires !binder.Parens?
    ensures ReparsePiType(span, binder, body) == Ok(Arrow(binder, body))
  {
  }

  /** A parenthesised term that is not an annotation is re-wrapped as it was and becomes an arrow domain. */
  lemma ReparseParensWithoutAnn(span: Span, parenSpan: Span, inner: Term, body: Term)
    requires !inner.Ann?
    ensures ReparsePiType(span, Parens(parenSpan, inner), body)
         == Ok(Arrow(Parens(parenSpan, inner), body))
  {
  }

  /**
   * `(x y z : A) -> B` is the pi type starting at the start of the whole
   * span, binding the variable leaves' spans and names in order.
   */
  lemma {:induction false} ReparseBinderGroup(span: Span, parenSpan: Span, params: Term, ann: Term, body: Term)
    requires forall i :: 0 <= i < |Leaves(params)| ==> Leaves(params)[i].Var?
    ensures ReparsePiType(span, Parens(parenSpan, Ann(params, ann)), body)
         == Ok(Pi(span.lo, (NamesOf(Leaves(params)), ann), body))
  {
    ParamNamesByLeaves(params);
  }

  /**
   * A binder group with a leaf that is not a variable is rejected with the
   * span of the first such leaf; translated for the caller, the error and
   * its span are unchanged.
   */
  lemma {:induction false} ReparseBadBinder(src: seq<byte>, span: Span, parenSpan: Span,
                                             params: Term, ann: Term, body: Term)
    requires VarRun(Leaves(params)) < |Leaves(params)|
    ensures var leaf := Leaves(params)[VarRun(Leaves(params))];
      && !leaf.Var? && !leaf.App?
      && ReparsePiType(span, Parens(parenSpan, Ann(params, ann)), body)
         == Err(User(IdentifierExpectedInPiType(TermSpan(leaf))))
      && FromLalrpop(src, User(IdentifierExpectedInPiType(TermSpan(leaf))), (t: Token) => t)
         == IdentifierExpectedInPiType(TermSpan(leaf))
      && ErrorSpan(IdentifierExpectedInPiType(TermSpan(leaf))) == TermSpan(leaf)
  {
    ParamNamesByLeaves(params);
  }

  /** The parse of `((x : Type) : Type) -> Type`: the inner annotation is not a name, at bytes 1 to 11. */
  lemma PiBadIdentExample()
    ensures
      var ty := Other(Span(BytePos(6), BytePos(10)));
      var inner := Parens(Span(BytePos(1), BytePos(11)), Ann(Var(Span(BytePos(2), BytePos(3)), "x"), ty));
      var binder := Parens(Span(BytePos(0), BytePos(19)), Ann(inner, Other(Span(BytePos(14), BytePos(18)))));
      ReparsePiType(Span(BytePos(0), BytePos(27)), binder, Other(Span(BytePos(23), BytePos(27))))
        == Err(User(IdentifierExpectedInPiType(Span(BytePos(1), BytePos(11)))))
  {
  }
}
