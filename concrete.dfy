/**
 * The concrete syntax tree, reduced to the forms that the reinterpretation
 * of pi-type binders inspects or builds. The module that defines the full
 * tree (src/syntax/concrete.rs) is not part of this model: every form the
 * reinterpretation does not look into (universes, literals, holes,
 * lambdas, records, ...) is represented by `Other`, which keeps its span.
 */
module Concrete {
  import opened Pos

  datatype Term =
    | Var(span: Span, name: string)
    | App(head: Term, arg: Term)
    | Parens(span: Span, inner: Term)
    | Ann(term: Term, ann: Term)
    | Pi(lo: BytePos, params: (seq<(Span, string)>, Term), body: Term)
    | Arrow(domain: Term, body: Term)
    | Other(span: Span)

  /**
   * `Term::span`. The leaf forms carry their span; a compound form covers
   * the spans of its parts.
   */
  function TermSpan(t: Term): (r: Span)
    ensures t.Var? || t.Parens? || t.Other? ==> r == t.span
    ensures t.App? ==> Covers(r, TermSpan(t.head)) && Covers(r, TermSpan(t.arg))
    ensures t.Ann? ==> Covers(r, TermSpan(t.term)) && Covers(r, TermSpan(t.ann))
    ensures t.Arrow? ==> Covers(r, TermSpan(t.domain)) && Covers(r, TermSpan(t.body))
    ensures t.Pi? ==> r.lo == t.lo && r.hi == TermSpan(t.body).hi
  {
    match t
    case Var(span, _) => span
    case App(f, a) => SpanTo(TermSpan(f), TermSpan(a))
    case Parens(span, _) => span
    case Ann(term, ann) => SpanTo(TermSpan(term), TermSpan(ann))
    case Pi(lo, _, body) => Span(lo, TermSpan(body).hi)
    case Arrow(domain, body) => SpanTo(TermSpan(domain), TermSpan(body))
    case Other(span) => span
  }
}
