/**
 * Locally-nameless variables (nameless/src/var.rs): a variable is either
 * free, known by its name, or bound, known by a de Bruijn index together
 * with the name it was written with.
 *
 * The name type `N` and the index type are the library's own; only their
 * equality (and, for `AlphaEq`, the components' alpha-equivalence, passed in
 * as functions) is used here.
 */
module Nameless {

  /** A de Bruijn index. */
  datatype Debruijn = Debruijn(index: nat)

  /** A bound position paired with the name it was written with. */
  datatype Named<N, B> = Named(name: N, inner: B)

  /** A variable that can either be free or bound. */
  datatype Var<N, B> = Free(name: N) | Bound(bound: Named<N, B>)

  /**
   * `AlphaEq for Var`: two free variables compare by their names, two bound
   * variables by `Named`'s own comparison, and a free variable is never
   * alpha-equivalent to a bound one.
   */
  function AlphaEq<N, B>(a: Var<N, B>, b: Var<N, B>,
                         nameEq: (N, N) -> bool,
                         namedEq: (Named<N, B>, Named<N, B>) -> bool): (r: bool)
    ensures a.Free? != b.Free? ==> !r
    ensures a.Free? && b.Free? ==> (r <==> nameEq(a.name, b.name))
    ensures a.Bound? && b.Bound? ==> (r <==> namedEq(a.bound, b.bound))
  {
    match (a, b)
    case (Free(x), Free(y)) => nameEq(x, y)
    case (Bound(x), Bound(y)) => namedEq(x, y)
    case _ => false
  }

  ghost predicate IsEquivalence<T(!new)>(eq: (T, T) -> bool) {
    && (forall x :: eq(x, x))
    && (forall x, y :: eq(x, y) ==> eq(y, x))
    && (forall x, y, z :: eq(x, y) && eq(y, z) ==> eq(x, z))
  }

  /** When both component comparisons are equivalences, so is `AlphaEq`. */
  lemma AlphaEqIsEquivalence<N(!new), B(!new)>(
    nameEq: (N, N) -> bool, namedEq: (Named<N, B>, Named<N, B>) -> bool)
    requires IsEquivalence(nameEq) && IsEquivalence(namedEq)
    ensures IsEquivalence((a: Var<N, B>, b: Var<N, B>) => AlphaEq(a, b, nameEq, namedEq))
  {
  }

  /**
   * `close_at` as a value: the free variable called `name` becomes bound at
   * `index`, keeping the name; every other variable is left as it was.
   */
  function Close<N(==)>(v: Var<N, Debruijn>, index: Debruijn, name: N): (r: Var<N, Debruijn>)
    ensures r != v <==> v == Free(name)
    ensures v == Free(name) ==> r == Bound(Named(name, index))
  {
    match v
    case Free(n) => if n == name then Bound(Named(n, index)) else v
    case Bound(_) => v
  }

  /**
   * `open_at` as a value: a variable bound at `index` becomes the free
   * variable `name`, whatever name it stored; every other variable is left
   * as it was.
   */
  function Open<N>(v: Var<N, Debruijn>, index: Debruijn, name: N): (r: Var<N, Debruijn>)
    ensures v.Bound? && v.bound.inner == index ==> r == Free(name)
    ensures !(v.Bound? && v.bound.inner == index) ==> r == v
  {
    match v
    case Bound(Named(_, i)) => if i == index then Free(name) else v
    case Free(_) => v
  }

  /** Round trip: opening what was just closed gives back any free variable. */
  lemma OpenAfterClose<N>(v: Var<N, Debruijn>, index: Debruijn, name: N)
    requires v.Free?
    ensures Open(Close(v, index, name), index, name) == v
  {
  }

  /**
   * The other round trip: closing what was just opened rebinds a variable
   * bound at `index`, now carrying the name `name`.
   */
  lemma CloseAfterOpen<N>(v: Var<N, Debruijn>, index: Debruijn, name: N)
    requires v.Bound? && v.bound.inner == index
    ensures Close(Open(v, index, name), index, name) == Bound(Named(name, index))
  {
  }

  /** A second `close_at` or `open_at` with the same arguments changes nothing. */
  lemma CloseOpenIdempotent<N>(v: Var<N, Debruijn>, index: Debruijn, name: N)
    ensures Close(Close(v, index, name), index, name) == Close(v, index, name)
    ensures Open(Open(v, index, name), index, name) == Open(v, index, name)
  {
  }

  /** A mutable variable, the receiver of `close_at` and `open_at`. */
  class VarPlace<N(==)> {
    var current: Var<N, Debruijn>

    constructor (init: Var<N, Debruijn>)
      ensures current == init
    {
      current := init;
    }

    /** `close_at`: overwrites the variable in place. */
    method CloseAt(index: Debruijn, name: N)
      modifies this
      ensures current == Close(old(current), index, name)
    {
      match current
      case Free(n) =>
        if n == name {
          current := Bound(Named(n, index));
        }
      case Bound(_) =>
    }

    /** `open_at`: overwrites the variable in place. */
    method OpenAt(index: Debruijn, name: N)
      modifies this
      ensures current == Open(old(current), index, name)
    {
      match current
      case Bound(Named(_, i)) =>
        if i == index {
          current := Free(name);
        }
      case Free(_) =>
    }
  }

  /** The name a variable was written with. */
  function NameOf<N, B>(v: Var<N, B>): N
  {
    match v
    case Free(n) => n
    case Bound(b) => b.name
  }

  /**
   * `Display for Var`: the name, followed by the index for a bound variable
   * in the formatter's alternate mode only.
   */
  function Display<N, B>(v: Var<N, B>, alternate: bool,
                         showName: N -> string, showIndex: B -> string): (s: string)
    ensures showName(NameOf(v)) <= s
    ensures !alternate || v.Free? ==> s == showName(NameOf(v))
    ensures alternate && v.Bound? ==> s[|showName(NameOf(v))|..] == showIndex(v.bound.inner)
  {
    match v
    case Bound(b) => if alternate then showName(b.name) + showIndex(b.inner) else showName(b.name)
    case Free(n) => showName(n)
  }

  /**
   * Outside alternate mode a variable prints as its name alone, so closing
   * never changes how it prints; in alternate mode a bound variable's text
   * starts with its name and ends with its index.
   */
  lemma DisplayShowsIndexOnlyWhenAlternate<N>(
    v: Var<N, Debruijn>, index: Debruijn, name: N,
    showName: N -> string, showIndex: Debruijn -> string)
    ensures Display(v, false, showName, showIndex) == showName(NameOf(v))
    ensures Display(Close(v, index, name), false, showName, showIndex)
         == Display(v, false, showName, showIndex)
    ensures v.Bound? ==>
      Display(v, true, showName, showIndex) == showName(v.bound.name) + showIndex(v.bound.inner)
  {
  }
}
