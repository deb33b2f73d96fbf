/**
 * Reading values back into terms (`From<&Value>`, `From<&Neutral>` and
 * `From<&Head>` for `Term`, src/syntax/core.rs). Binders, labels and case
 * patterns are copied; a neutral value becomes its neutral part applied,
 * left to right, to the read-back of its spine.
 */
module CoreReadBack {
  import opened Syntax
  import opened CoreSyntax
  import opened CoreValue
  import opened CoreSubst

  /**
   * `spine.iter().fold(head, Term::App)`: `head` applied to each argument
   * in turn, so the last argument is the outermost application.
   */
  function ApplySpine(head: Term, args: seq<Term>): (r: Term)
    ensures |args| == 0 ==> r == head
    ensures !head.App? ==> Unapply(r) == (head, args)
    decreases |args|
  {
    if |args| == 0 then head
    else
      assert args[..|args| - 1] + [args[|args| - 1]] == args;
      Term.App(ApplySpine(head, args[..|args| - 1]), args[|args| - 1])
  }

  /** Splits a chain of applications into the innermost head and its arguments. */
  function Unapply(t: Term): (r: (Term, seq<Term>))
    ensures !r.0.App?
    ensures !t.App? ==> r == (t, [])
    decreases t
  {
    match t
    case App(f, a) =>
      var (h, args) := Unapply(f);
      (h, args + [a])
    case _ => (t, [])
  }

  /** Every term is its innermost head applied to its arguments. */
  lemma {:induction false} ApplySpineUnapply(t: Term)
    ensures ApplySpine(Unapply(t).0, Unapply(t).1) == t
    decreases t
  {
    match t
    case App(f, a) =>
      ApplySpineUnapply(f);
      var (h, args) := Unapply(f);
      assert (args + [a])[..|args|] == args;
    case _ =>
  }

  /** The read-back of each value of a spine, array or list of arguments. */
  function ReadBackAll(vs: seq<Value>): (r: seq<Term>)
    ensures |r| == |vs|
    ensures forall i :: 0 <= i < |vs| ==> r[i] == ReadBack(vs[i])
    decreases vs, 1
  {
    seq(|vs|, i requires 0 <= i < |vs| => ReadBack(vs[i]))
  }

  /**
   * `From<&Value> for Term`. Only a neutral value reads back as an
   * application or a variable; every other value keeps its constructor,
   * its binder and its field labels.
   */
  function ReadBack(v: Value): (r: Term)
    ensures v.Universe? ==> r == Term.Universe(v.level)
    ensures v.Literal? ==> r == Term.Literal(v.lit)
    ensures v.Pi? ==> r.Pi? && r.binder == v.binder
    ensures v.Lam? ==> r.Lam? && r.binder == v.binder
    ensures v.RecordType? ==> r.RecordType? && TermFieldKeys(r.fields) == ValueFieldKeys(v.fields)
    ensures v.Record? ==> r.Record? && TermFieldKeys(r.fields) == ValueFieldKeys(v.fields)
    ensures v.Array? ==> r.Array? && |r.elems| == |v.elems|
    ensures r.App? || r.Var? || r.Extern? || r.If? || r.Proj? || r.Case? <==> v.Neutral?
    decreases v, 0
  {
    match v
    case Universe(level) => Term.Universe(level)
    case Literal(lit) => Term.Literal(lit)
    case Pi(b, ann, body) => Term.Pi(b, ReadBack(ann), ReadBack(body))
    case Lam(b, ann, body) => Term.Lam(b, ReadBack(ann), ReadBack(body))
    case RecordType(fs) =>
      Term.RecordType(seq(|fs|, i requires 0 <= i < |fs| =>
        TermField(fs[i].fieldLabel, fs[i].binder, ReadBack(fs[i].value))))
    case Record(fs) =>
      Term.Record(seq(|fs|, i requires 0 <= i < |fs| =>
        TermField(fs[i].fieldLabel, fs[i].binder, ReadBack(fs[i].value))))
    case Array(es) => Term.Array(ReadBackAll(es))
    case Neutral(n, spine) => ApplySpine(ReadBackNeutral(n), ReadBackAll(spine))
  }

  /**
   * `From<&Neutral> for Term`: never an application, so the spine applied
   * to it can be split off again.
   */
  function ReadBackNeutral(n: Neutral): (r: Term)
    ensures r.Var? || r.Extern? || r.If? || r.Proj? || r.Case?
    ensures n.Proj? ==> r.Proj? && r.fieldLabel == n.fieldLabel
    ensures n.Case? ==> r.Case? && |r.clauses| == |n.clauses|
    ensures n.Case? ==> forall i :: 0 <= i < |n.clauses| ==> r.clauses[i].pattern == n.clauses[i].pattern
    decreases n
  {
    match n
    case Head(h) => ReadBackHead(h)
    case If(c, a, b) => Term.If(ReadBackNeutral(c), ReadBack(a), ReadBack(b))
    case Proj(e, l) => Term.Proj(ReadBackNeutral(e), l)
    case Case(e, cs) =>
      Term.Case(ReadBackNeutral(e), seq(|cs|, i requires 0 <= i < |cs| =>
        TermClause(cs[i].pattern, ReadBack(cs[i].body))))
  }

  /** `From<&Head> for Term`: a variable keeps its name and shift, an extern its name. */
  function ReadBackHead(h: Head): (r: Term)
    ensures h.Var? <==> r.Var?
    ensures h.Var? ==> r.variable == h.variable && r.shift == h.shift
    ensures h.Extern? <==> r.Extern?
    ensures h.Extern? ==> r.name == h.name
    decreases h
  {
    match h
    case Var(x, shift) => Term.Var(x, shift)
    case Extern(name, ty) => Term.Extern(name, ReadBack(ty))
  }

  /** A neutral value reads back as its neutral part applied to its spine, which can be split off again. */
  lemma ReadBackNeutralValue(n: Neutral, spine: Spine)
    ensures Unapply(ReadBack(Value.Neutral(n, spine))) == (ReadBackNeutral(n), ReadBackAll(spine))
  {
  }

  /**
   * The read-back is headed by a free variable exactly when
   * `Value::free_var_app` finds one, and then its arguments are the
   * read-back of that spine.
   */
  lemma FreeVarAppReadBack(v: Value)
    ensures FreeVarApp(v).Some? <==> Unapply(ReadBack(v)).0.Var? && Unapply(ReadBack(v)).0.variable.Free?
    ensures FreeVarApp(v).Some? ==>
      var (x, shift, spine) := FreeVarApp(v).value;
      Unapply(ReadBack(v)) == (Term.Var(Var.Free(x), shift), ReadBackAll(spine))
  {
    if v.Neutral? {
      ReadBackNeutralValue(v.neutral, v.spine);
    }
  }

  /**
   * A term built only from universes, literals, function types, lambdas,
   * records, record types and arrays: no variable, application or other
   * elimination anywhere outside patterns.
   */
  predicate NormalTerm(t: Term)
    decreases t
  {
    match t
    case Universe(_) => true
    case Literal(_) => true
    case Pi(_, ann, body) => NormalTerm(ann) && NormalTerm(body)
    case Lam(_, ann, body) => NormalTerm(ann) && NormalTerm(body)
    case RecordType(fs) => forall i :: 0 <= i < |fs| ==> NormalTerm(fs[i].term)
    case Record(fs) => forall i :: 0 <= i < |fs| ==> NormalTerm(fs[i].term)
    case Array(es) => forall i :: 0 <= i < |es| ==> NormalTerm(es[i])
    case _ => false
  }

  /** `Value::is_nf` holds exactly of the values that read back as normal terms. */
  lemma {:induction false} ReadBackNormal(v: Value)
    ensures IsNf(v) <==> NormalTerm(ReadBack(v))
    decreases v
  {
    match v
    case Universe(_) =>
    case Literal(_) =>
    case Pi(_, ann, body) => ReadBackNormal(ann); ReadBackNormal(body);
    case Lam(_, ann, body) => ReadBackNormal(ann); ReadBackNormal(body);
    case RecordType(fs) =>
      forall i | 0 <= i < |fs| ensures IsNf(fs[i].value) <==> NormalTerm(ReadBack(v).fields[i].term) {
        assert fs[i].value < fs[i];
        ReadBackNormal(fs[i].value);
      }
    case Record(fs) =>
      forall i | 0 <= i < |fs| ensures IsNf(fs[i].value) <==> NormalTerm(ReadBack(v).fields[i].term) {
        assert fs[i].value < fs[i];
        ReadBackNormal(fs[i].value);
      }
    case Array(es) =>
      forall i | 0 <= i < |es| ensures IsNf(es[i]) <==> NormalTerm(ReadBack(v).elems[i]) {
        ReadBackNormal(es[i]);
      }
    case Neutral(_, _) =>
  }

  /** A normal term mentions no variable. */
  lemma {:induction false} NormalTermUnmentioned(t: Term, x: FreeVar)
    requires NormalTerm(t)
    ensures !Mentions(t, x)
    decreases t
  {
    match t
    case Universe(_) =>
    case Literal(_) =>
    case Pi(_, ann, body) => NormalTermUnmentioned(ann, x); NormalTermUnmentioned(body, x);
    case Lam(_, ann, body) => NormalTermUnmentioned(ann, x); NormalTermUnmentioned(body, x);
    case RecordType(fs) =>
      forall i | 0 <= i < |fs| ensures !Mentions(fs[i].term, x) {
        NormalTermUnmentioned(fs[i].term, x);
      }
    case Record(fs) =>
      forall i | 0 <= i < |fs| ensures !Mentions(fs[i].term, x) {
        NormalTermUnmentioned(fs[i].term, x);
      }
    case Array(es) =>
      forall i | 0 <= i < |es| ensures !Mentions(es[i], x) {
        NormalTermUnmentioned(es[i], x);
      }
  }

  /**
   * `Value::substs` reads the value back and substitutes in the term; on a
   * value in normal form there is nothing to replace.
   */
  lemma {:induction false} SubstsNormalValue(v: Value, mappings: Mappings)
    requires IsNf(v)
    ensures Substs(ReadBack(v), mappings) == ReadBack(v)
  {
    ReadBackNormal(v);
    forall i | 0 <= i < |mappings| ensures !Mentions(ReadBack(v), mappings[i].0) {
      NormalTermUnmentioned(ReadBack(v), mappings[i].0);
    }
    SubstsUnmentioned(ReadBack(v), mappings);
  }

  /** Reading back loses nothing: different values read back as different terms. */
  lemma {:induction false} ReadBackInjective(v: Value, w: Value)
    requires ReadBack(v) == ReadBack(w)
    ensures v == w
    decreases v, 1
  {
    match v
    case Universe(_) =>
    case Literal(_) =>
    case Pi(_, ann, body) =>
      ReadBackInjective(ann, w.ann);
      ReadBackInjective(body, w.body);
    case Lam(_, ann, body) =>
      ReadBackInjective(ann, w.ann);
      ReadBackInjective(body, w.body);
    case RecordType(fs) =>
      FieldsReadBackEqual(v, w);
      FieldsInjective(v, fs, w.fields);
    case Record(fs) =>
      FieldsReadBackEqual(v, w);
      FieldsInjective(v, fs, w.fields);
    case Array(es) => ReadBackAllInjective(v, es, w.elems);
    case Neutral(n, spine) =>
      ReadBackNeutralValue(n, spine);
      ReadBackNeutralValue(w.neutral, w.spine);
      ReadBackNeutralInjective(n, w.neutral);
      ReadBackAllInjective(v, spine, w.spine);
  }

  lemma FieldsReadBackEqual(v: Value, w: Value)
    requires v.RecordType? || v.Record?
    requires ReadBack(v) == ReadBack(w)
    ensures w.RecordType? || w.Record?
    ensures |v.fields| == |w.fields|
    ensures forall i :: 0 <= i < |v.fields| ==>
      TermField(v.fields[i].fieldLabel, v.fields[i].binder, ReadBack(v.fields[i].value))
      == TermField(w.fields[i].fieldLabel, w.fields[i].binder, ReadBack(w.fields[i].value))
  {
    assert |ReadBack(v).fields| == |v.fields|;
    assert |ReadBack(w).fields| == |w.fields|;
    forall i | 0 <= i < |v.fields|
      ensures ReadBack(v).fields[i] == TermField(v.fields[i].fieldLabel, v.fields[i].binder, ReadBack(v.fields[i].value))
      ensures ReadBack(w).fields[i] == TermField(w.fields[i].fieldLabel, w.fields[i].binder, ReadBack(w.fields[i].value))
    {
    }
  }

  lemma {:induction false} FieldsInjective(parent: Value, fs: seq<ValueField>, gs: seq<ValueField>)
    requires forall i :: 0 <= i < |fs| ==> fs[i] < parent
    requires |fs| == |gs|
    requires forall i :: 0 <= i < |fs| ==>
      TermField(fs[i].fieldLabel, fs[i].binder, ReadBack(fs[i].value))
      == TermField(gs[i].fieldLabel, gs[i].binder, ReadBack(gs[i].value))
    ensures fs == gs
    decreases parent, 0
  {
    forall i | 0 <= i < |fs| ensures fs[i] == gs[i] {
      assert fs[i].value < fs[i];
      ReadBackInjective(fs[i].value, gs[i].value);
    }
  }

  lemma {:induction false} ReadBackAllInjective(parent: Value, vs: seq<Value>, ws: seq<Value>)
    requires forall i :: 0 <= i < |vs| ==> vs[i] < parent
    requires ReadBackAll(vs) == ReadBackAll(ws)
    ensures vs == ws
    decreases parent, 0
  {
    forall i | 0 <= i < |vs| ensures vs[i] == ws[i] {
      assert ReadBackAll(vs)[i] == ReadBackAll(ws)[i];
      ReadBackInjective(vs[i], ws[i]);
    }
  }

  lemma {:induction false} ReadBackNeutralInjective(n: Neutral, m: Neutral)
    requires ReadBackNeutral(n) == ReadBackNeutral(m)
    ensures n == m
    decreases n
  {
    match n
    case Head(Var(_, _)) =>
    case Head(Extern(_, ty)) => ReadBackInjective(ty, m.head.ty);
    case If(c, a, b) =>
      ReadBackNeutralInjective(c, m.cond);
      ReadBackInjective(a, m.ifTrue);
      ReadBackInjective(b, m.ifFalse);
    case Proj(e, _) => ReadBackNeutralInjective(e, m.expr);
    case Case(e, cs) =>
      ReadBackNeutralInjective(e, m.scrutinee);
      forall i | 0 <= i < |cs| ensures cs[i] == m.clauses[i] {
        assert ReadBackNeutral(n).clauses[i] == ReadBackNeutral(m).clauses[i];
        assert cs[i].body < cs[i];
        ReadBackInjective(cs[i].body, m.clauses[i].body);
      }
  }
}
