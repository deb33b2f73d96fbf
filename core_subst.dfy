/**
 * Substitution on core terms (`RcTerm::substs`, src/syntax/core.rs). The
 * substitution is structural and does not avoid capture: it replaces free
 * variables wherever they occur outside patterns and leaves binders,
 * labels, extern names and case patterns as they are.
 */
module CoreSubst {
  import opened Syntax
  import opened CoreSyntax

  /** Replacements for free variables, tried in order. */
  type Mappings = seq<(FreeVar, Term)>

  /** `var == name` between a variable and a free name: only a free variable can match. */
  predicate Matches(x: Var, name: FreeVar) {
    x.Free? && x.free == name
  }

  /** `mappings.iter().find(..)`: the position of the first mapping for `x`, or `|mappings|` if there is none. */
  function FirstMatch(x: Var, mappings: Mappings): (k: nat)
    ensures k <= |mappings|
    ensures forall j :: 0 <= j < k ==> !Matches(x, mappings[j].0)
    ensures k < |mappings| ==> Matches(x, mappings[k].0)
  {
    if |mappings| == 0 then 0
    else if Matches(x, mappings[0].0) then 0
    else 1 + FirstMatch(x, mappings[1..])
  }

  /**
   * `t` and `r` have the same outermost constructor, with the same
   * labels, binders, extern name, case patterns, and numbers of fields,
   * clauses and elements. Only a variable may turn into something else.
   */
  predicate SameShape(t: Term, r: Term) {
    match t
    case Ann(_, _) => r.Ann?
    case Universe(_) => r == t
    case Literal(_) => r == t
    case Var(_, _) => true
    case Extern(name, _) => r.Extern? && r.name == name
    case Pi(b, _, _) => r.Pi? && r.binder == b
    case Lam(b, _, _) => r.Lam? && r.binder == b
    case Let(b, _, _) => r.Let? && r.binder == b
    case App(_, _) => r.App?
    case If(_, _, _) => r.If?
    case RecordType(fs) => r.RecordType? && TermFieldKeys(r.fields) == TermFieldKeys(fs)
    case Record(fs) => r.Record? && TermFieldKeys(r.fields) == TermFieldKeys(fs)
    case Proj(_, l) => r.Proj? && r.fieldLabel == l
    case Case(_, cs) =>
      r.Case? && |r.clauses| == |cs|
      && forall i :: 0 <= i < |cs| ==> r.clauses[i].pattern == cs[i].pattern
    case Array(es) => r.Array? && |r.elems| == |es|
  }

  /** `RcTerm::substs`. */
  function Substs(t: Term, mappings: Mappings): (r: Term)
    ensures !t.Var? ==> SameShape(t, r)
    decreases t
  {
    match t
    case Ann(term, ty) => Term.Ann(Substs(term, mappings), Substs(ty, mappings))
    case Universe(_) => t
    case Literal(_) => t
    case Var(x, _) =>
      var k := FirstMatch(x, mappings);
      if k < |mappings| then mappings[k].1 else t
    case Extern(name, ty) => Term.Extern(name, Substs(ty, mappings))
    case Pi(b, ann, body) => Term.Pi(b, Substs(ann, mappings), Substs(body, mappings))
    case Lam(b, ann, body) => Term.Lam(b, Substs(ann, mappings), Substs(body, mappings))
    case Let(b, bind, body) => Term.Let(b, Substs(bind, mappings), Substs(body, mappings))
    case App(head, arg) => Term.App(Substs(head, mappings), Substs(arg, mappings))
    case If(c, a, b) => Term.If(Substs(c, mappings), Substs(a, mappings), Substs(b, mappings))
    case RecordType(fs) =>
      if |fs| == 0 then t
      else Term.RecordType(seq(|fs|, i requires 0 <= i < |fs| =>
        TermField(fs[i].fieldLabel, fs[i].binder, Substs(fs[i].term, mappings))))
    case Record(fs) =>
      if |fs| == 0 then t
      else Term.Record(seq(|fs|, i requires 0 <= i < |fs| =>
        TermField(fs[i].fieldLabel, fs[i].binder, Substs(fs[i].term, mappings))))
    case Proj(e, l) => Term.Proj(Substs(e, mappings), l)
    case Case(head, cs) =>
      Term.Case(Substs(head, mappings), seq(|cs|, i requires 0 <= i < |cs| =>
        TermClause(cs[i].pattern, Substs(cs[i].body, mappings))))
    case Array(es) =>
      Term.Array(seq(|es|, i requires 0 <= i < |es| => Substs(es[i], mappings)))
  }

  /**
   * A variable becomes the term of the first mapping for it, and stays as
   * it is when no mapping is for it; a bound variable is never replaced.
   */
  lemma SubstsVar(x: Var, s: LevelShift, mappings: Mappings)
    ensures (forall i :: 0 <= i < |mappings| ==> !Matches(x, mappings[i].0)) ==>
      Substs(Term.Var(x, s), mappings) == Term.Var(x, s)
    ensures forall i :: 0 <= i < |mappings| && Matches(x, mappings[i].0) ==>
      (forall j :: 0 <= j < i ==> !Matches(x, mappings[j].0)) ==>
      Substs(Term.Var(x, s), mappings) == mappings[i].1
    ensures x.Bound? ==> Substs(Term.Var(x, s), mappings) == Term.Var(x, s)
  {
  }

  /** `x` occurs as a variable in `t`, outside patterns. */
  predicate Mentions(t: Term, x: FreeVar)
    decreases t
  {
    match t
    case Ann(term, ty) => Mentions(term, x) || Mentions(ty, x)
    case Universe(_) => false
    case Literal(_) => false
    case Var(v, _) => Matches(v, x)
    case Extern(_, ty) => Mentions(ty, x)
    case Pi(_, ann, body) => Mentions(ann, x) || Mentions(body, x)
    case Lam(_, ann, body) => Mentions(ann, x) || Mentions(body, x)
    case Let(_, bind, body) => Mentions(bind, x) || Mentions(body, x)
    case App(head, arg) => Mentions(head, x) || Mentions(arg, x)
    case If(c, a, b) => Mentions(c, x) || Mentions(a, x) || Mentions(b, x)
    case RecordType(fs) => exists i :: 0 <= i < |fs| && Mentions(fs[i].term, x)
    case Record(fs) => exists i :: 0 <= i < |fs| && Mentions(fs[i].term, x)
    case Proj(e, _) => Mentions(e, x)
    case Case(head, cs) => Mentions(head, x) || exists i :: 0 <= i < |cs| && Mentions(cs[i].body, x)
    case Array(es) => exists i :: 0 <= i < |es| && Mentions(es[i], x)
  }

  /** Substituting for names that do not occur in `t` gives back `t`. */
  lemma {:induction false} SubstsUnmentioned(t: Term, mappings: Mappings)
    requires forall i :: 0 <= i < |mappings| ==> !Mentions(t, mappings[i].0)
    ensures Substs(t, mappings) == t
    decreases t, 1
  {
    match t
    case Ann(term, ty) =>
      SubstsUnmentioned(term, mappings);
      SubstsUnmentioned(ty, mappings);
    case Universe(_) =>
    case Literal(_) =>
    case Var(_, _) =>
    case Extern(_, ty) =>
      SubstsUnmentioned(ty, mappings);
    case Pi(_, ann, body) =>
      SubstsUnmentioned(ann, mappings);
      SubstsUnmentioned(body, mappings);
    case Lam(_, ann, body) =>
      SubstsUnmentioned(ann, mappings);
      SubstsUnmentioned(body, mappings);
    case Let(_, bind, body) =>
      SubstsUnmentioned(bind, mappings);
      SubstsUnmentioned(body, mappings);
    case App(head, arg) =>
      SubstsUnmentioned(head, mappings);
      SubstsUnmentioned(arg, mappings);
    case If(c, a, b) =>
      SubstsUnmentioned(c, mappings);
      SubstsUnmentioned(a, mappings);
      SubstsUnmentioned(b, mappings);
    case Proj(e, _) =>
      SubstsUnmentioned(e, mappings);
    case _ =>
      UnmentionedInSequences(t, mappings);
  }

  /** `SubstsUnmentioned` for the forms holding sequences of subterms. */
  lemma {:induction false} UnmentionedInSequences(t: Term, mappings: Mappings)
    requires forall i :: 0 <= i < |mappings| ==> !Mentions(t, mappings[i].0)
    requires t.RecordType? || t.Record? || t.Case? || t.Array?
    ensures Substs(t, mappings) == t
    decreases t, 0
  {
    match t
    case RecordType(fs) =>
      forall i | 0 <= i < |fs| ensures Substs(fs[i].term, mappings) == fs[i].term {
        SubstsUnmentioned(fs[i].term, mappings);
      }
      if |fs| > 0 {
        assert Substs(t, mappings).fields == fs;
      }
    case Record(fs) =>
      forall i | 0 <= i < |fs| ensures Substs(fs[i].term, mappings) == fs[i].term {
        SubstsUnmentioned(fs[i].term, mappings);
      }
      if |fs| > 0 {
        assert Substs(t, mappings).fields == fs;
      }
    case Case(head, cs) =>
      SubstsUnmentioned(head, mappings);
      forall i | 0 <= i < |cs| ensures Substs(cs[i].body, mappings) == cs[i].body {
        SubstsUnmentioned(cs[i].body, mappings);
      }
      assert Substs(t, mappings).clauses == cs;
    case Array(es) =>
      forall i | 0 <= i < |es| ensures Substs(es[i], mappings) == es[i] {
        SubstsUnmentioned(es[i], mappings);
      }
      assert Substs(t, mappings).elems == es;
  }

  /** Substituting with no mappings gives back a term equal to the input. */
  lemma {:induction false} SubstsEmpty(t: Term)
    ensures Substs(t, []) == t
  {
    SubstsUnmentioned(t, []);
  }

  /**
   * After substitution a name that has a mapping (the one at position `n`)
   * no longer occurs, provided that no replacement term mentions it.
   */
  lemma {:induction false} SubstsEliminates(t: Term, mappings: Mappings, x: FreeVar, n: nat)
    requires n < |mappings| && mappings[n].0 == x
    requires forall i :: 0 <= i < |mappings| ==> !Mentions(mappings[i].1, x)
    ensures !Mentions(Substs(t, mappings), x)
    decreases t, 1
  {
    if t.Var? {
      EliminatesInVar(t, mappings, x, n);
    } else if t.RecordType? || t.Record? || t.Case? || t.Array? {
      EliminatesInSequences(t, mappings, x, n);
    } else if t.Pi? || t.Lam? || t.Let? {
      EliminatesInBinders(t, mappings, x, n);
    } else if t.Ann? || t.App? {
      EliminatesInPairs(t, mappings, x, n);
    } else if t.Extern? || t.If? || t.Proj? {
      EliminatesInChildren(t, mappings, x, n);
    }
  }

  /** `SubstsEliminates` for a variable: either it is replaced, or it is not `x`. */
  lemma EliminatesInVar(t: Term, mappings: Mappings, x: FreeVar, n: nat)
    requires n < |mappings| && mappings[n].0 == x
    requires forall i :: 0 <= i < |mappings| ==> !Mentions(mappings[i].1, x)
    requires t.Var?
    ensures !Mentions(Substs(t, mappings), x)
  {
  }

  /** `SubstsEliminates` for the binding forms. */
  lemma {:induction false} EliminatesInBinders(t: Term, mappings: Mappings, x: FreeVar, n: nat)
    requires n < |mappings| && mappings[n].0 == x
    requires forall i :: 0 <= i < |mappings| ==> !Mentions(mappings[i].1, x)
    requires t.Pi? || t.Lam? || t.Let?
    ensures !Mentions(Substs(t, mappings), x)
    decreases t, 0
  {
    match t
    case Pi(_, ann, body) =>
      SubstsEliminates(ann, mappings, x, n);
      SubstsEliminates(body, mappings, x, n);
    case Lam(_, ann, body) =>
      SubstsEliminates(ann, mappings, x, n);
      SubstsEliminates(body, mappings, x, n);
    case Let(_, bind, body) =>
      SubstsEliminates(bind, mappings, x, n);
      SubstsEliminates(body, mappings, x, n);
  }

  /** `SubstsEliminates` for annotations and applications. */
  lemma {:induction false} EliminatesInPairs(t: Term, mappings: Mappings, x: FreeVar, n: nat)
    requires n < |mappings| && mappings[n].0 == x
    requires forall i :: 0 <= i < |mappings| ==> !Mentions(mappings[i].1, x)
    requires t.Ann? || t.App?
    ensures !Mentions(Substs(t, mappings), x)
    decreases t, 0
  {
    match t
    case Ann(term, ty) =>
      SubstsEliminates(term, mappings, x, n);
      SubstsEliminates(ty, mappings, x, n);
    case App(head, arg) =>
      SubstsEliminates(head, mappings, x, n);
      SubstsEliminates(arg, mappings, x, n);
  }

  /** `SubstsEliminates` for externs, conditionals and projections. */
  lemma {:induction false} EliminatesInChildren(t: Term, mappings: Mappings, x: FreeVar, n: nat)
    requires n < |mappings| && mappings[n].0 == x
    requires forall i :: 0 <= i < |mappings| ==> !Mentions(mappings[i].1, x)
    requires t.Extern? || t.If? || t.Proj?
    ensures !Mentions(Substs(t, mappings), x)
    decreases t, 0
  {
    match t
    case Extern(_, ty) =>
      SubstsEliminates(ty, mappings, x, n);
    case If(c, a, b) =>
      SubstsEliminates(c, mappings, x, n);
      SubstsEliminates(a, mappings, x, n);
      SubstsEliminates(b, mappings, x, n);
    case Proj(e, _) =>
      SubstsEliminates(e, mappings, x, n);
  }

  /** `SubstsEliminates` for the forms holding sequences of subterms. */
  lemma {:induction false} EliminatesInSequences(t: Term, mappings: Mappings, x: FreeVar, n: nat)
    requires n < |mappings| && mappings[n].0 == x
    requires forall i :: 0 <= i < |mappings| ==> !Mentions(mappings[i].1, x)
    requires t.RecordType? || t.Record? || t.Case? || t.Array?
    ensures !Mentions(Substs(t, mappings), x)
    decreases t, 0
  {
    match t
    case RecordType(fs) =>
      forall i | 0 <= i < |fs| ensures !Mentions(Substs(fs[i].term, mappings), x) {
        SubstsEliminates(fs[i].term, mappings, x, n);
      }
      NoMentionAfterFields(t, mappings, x);
    case Record(fs) =>
      forall i | 0 <= i < |fs| ensures !Mentions(Substs(fs[i].term, mappings), x) {
        SubstsEliminates(fs[i].term, mappings, x, n);
      }
      NoMentionAfterFields(t, mappings, x);
    case Case(head, cs) =>
      SubstsEliminates(head, mappings, x, n);
      forall i | 0 <= i < |cs| ensures !Mentions(Substs(cs[i].body, mappings), x) {
        SubstsEliminates(cs[i].body, mappings, x, n);
      }
      NoMentionAfterClauses(t, mappings, x);
    case Array(es) =>
      forall i | 0 <= i < |es| ensures !Mentions(Substs(es[i], mappings), x) {
        SubstsEliminates(es[i], mappings, x, n);
      }
      NoMentionAfterElems(t, mappings, x);
  }

  /** If no substituted part of a record mentions `x`, neither does the substituted record. */
  lemma NoMentionAfterFields(t: Term, mappings: Mappings, x: FreeVar)
    requires t.RecordType? || t.Record?
    requires forall i :: 0 <= i < |t.fields| ==> !Mentions(Substs(t.fields[i].term, mappings), x)
    ensures !Mentions(Substs(t, mappings), x)
  {
  }

  lemma NoMentionAfterClauses(t: Term, mappings: Mappings, x: FreeVar)
    requires t.Case? && !Mentions(Substs(t.scrutinee, mappings), x)
    requires forall i :: 0 <= i < |t.clauses| ==> !Mentions(Substs(t.clauses[i].body, mappings), x)
    ensures !Mentions(Substs(t, mappings), x)
  {
  }

  lemma NoMentionAfterElems(t: Term, mappings: Mappings, x: FreeVar)
    requires t.Array?
    requires forall i :: 0 <= i < |t.elems| ==> !Mentions(Substs(t.elems[i], mappings), x)
    ensures !Mentions(Substs(t, mappings), x)
  {
  }

  /**
   * A free variable that no mapping is for survives the substitution,
   * however deep it occurs, even when other names are replaced.
   */
  lemma {:induction false} SubstsKeepsUnmapped(t: Term, mappings: Mappings, y: FreeVar)
    requires forall i :: 0 <= i < |mappings| ==> mappings[i].0 != y
    requires Mentions(t, y)
    ensures Mentions(Substs(t, mappings), y)
    decreases t, 1
  {
    if t.RecordType? || t.Record? || t.Case? || t.Array? {
      KeptInSequences(t, mappings, y);
    } else if t.Pi? || t.Lam? || t.Let? {
      KeptInBinders(t, mappings, y);
    } else if t.Ann? || t.App? {
      KeptInPairs(t, mappings, y);
    } else if t.Extern? || t.If? || t.Proj? {
      KeptInChildren(t, mappings, y);
    }
  }

  /** `SubstsKeepsUnmapped` for the binding forms. */
  lemma {:induction false} KeptInBinders(t: Term, mappings: Mappings, y: FreeVar)
    requires forall i :: 0 <= i < |mappings| ==> mappings[i].0 != y
    requires Mentions(t, y)
    requires t.Pi? || t.Lam? || t.Let?
    ensures Mentions(Substs(t, mappings), y)
    decreases t, 0
  {
    match t
    case Pi(_, ann, body) =>
      if Mentions(ann, y) { SubstsKeepsUnmapped(ann, mappings, y); }
      else { SubstsKeepsUnmapped(body, mappings, y); }
    case Lam(_, ann, body) =>
      if Mentions(ann, y) { SubstsKeepsUnmapped(ann, mappings, y); }
      else { SubstsKeepsUnmapped(body, mappings, y); }
    case Let(_, bind, body) =>
      if Mentions(bind, y) { SubstsKeepsUnmapped(bind, mappings, y); }
      else { SubstsKeepsUnmapped(body, mappings, y); }
  }

  /** `SubstsKeepsUnmapped` for annotations and applications. */
  lemma {:induction false} KeptInPairs(t: Term, mappings: Mappings, y: FreeVar)
    requires forall i :: 0 <= i < |mappings| ==> mappings[i].0 != y
    requires Mentions(t, y)
    requires t.Ann? || t.App?
    ensures Mentions(Substs(t, mappings), y)
    decreases t, 0
  {
    match t
    case Ann(term, ty) =>
      if Mentions(term, y) { SubstsKeepsUnmapped(term, mappings, y); }
      else { SubstsKeepsUnmapped(ty, mappings, y); }
    case App(head, arg) =>
      if Mentions(head, y) { SubstsKeepsUnmapped(head, mappings, y); }
      else { SubstsKeepsUnmapped(arg, mappings, y); }
  }

  /** `SubstsKeepsUnmapped` for externs, conditionals and projections. */
  lemma {:induction false} KeptInChildren(t: Term, mappings: Mappings, y: FreeVar)
    requires forall i :: 0 <= i < |mappings| ==> mappings[i].0 != y
    requires Mentions(t, y)
    requires t.Extern? || t.If? || t.Proj?
    ensures Mentions(Substs(t, mappings), y)
    decreases t, 0
  {
    match t
    case Extern(_, ty) => SubstsKeepsUnmapped(ty, mappings, y);
    case If(c, a, b) =>
      if Mentions(c, y) { SubstsKeepsUnmapped(c, mappings, y); }
      else if Mentions(a, y) { SubstsKeepsUnmapped(a, mappings, y); }
      else { SubstsKeepsUnmapped(b, mappings, y); }
    case Proj(e, _) => SubstsKeepsUnmapped(e, mappings, y);
  }

  /** `SubstsKeepsUnmapped` for the forms holding sequences of subterms. */
  lemma {:induction false} KeptInSequences(t: Term, mappings: Mappings, y: FreeVar)
    requires forall i :: 0 <= i < |mappings| ==> mappings[i].0 != y
    requires Mentions(t, y)
    requires t.RecordType? || t.Record? || t.Case? || t.Array?
    ensures Mentions(Substs(t, mappings), y)
    decreases t, 0
  {
    match t
    case RecordType(fs) =>
      var i :| 0 <= i < |fs| && Mentions(fs[i].term, y);
      SubstsKeepsUnmapped(fs[i].term, mappings, y);
      assert Substs(t, mappings).fields[i].term == Substs(fs[i].term, mappings);
    case Record(fs) =>
      var i :| 0 <= i < |fs| && Mentions(fs[i].term, y);
      SubstsKeepsUnmapped(fs[i].term, mappings, y);
      assert Substs(t, mappings).fields[i].term == Substs(fs[i].term, mappings);
    case Case(head, cs) =>
      if Mentions(head, y) {
        SubstsKeepsUnmapped(head, mappings, y);
      } else {
        var i :| 0 <= i < |cs| && Mentions(cs[i].body, y);
        SubstsKeepsUnmapped(cs[i].body, mappings, y);
        assert Substs(t, mappings).clauses[i].body == Substs(cs[i].body, mappings);
      }
    case Array(es) =>
      var i :| 0 <= i < |es| && Mentions(es[i], y);
      SubstsKeepsUnmapped(es[i], mappings, y);
      assert Substs(t, mappings).elems[i] == Substs(es[i], mappings);
  }
}
