/**
 * Questions asked of values (src/syntax/core.rs): whether a value is in
 * weak head normal form or in normal form, and the head and spine of a
 * stuck application.
 */
module CoreValue {
  import opened Wrappers
  import opened Syntax
  import opened CoreSyntax

  /** `Value::is_whnf`: every value except a neutral one is in weak head normal form. */
  function IsWhnf(v: Value): (r: bool)
    ensures r <==> !v.Neutral?
  {
    match v
    case Neutral(_, _) => false
    case _ => true
  }

  /** `Value::is_nf`: the value contains no neutral value, except inside patterns. */
  function IsNf(v: Value): (r: bool)
    ensures r ==> IsWhnf(v)
    decreases v
  {
    match v
    case Universe(_) => true
    case Literal(_) => true
    case Pi(_, ann, body) => IsNf(ann) && IsNf(body)
    case Lam(_, ann, body) => IsNf(ann) && IsNf(body)
    case RecordType(fs) => forall i :: 0 <= i < |fs| ==> IsNf(fs[i].value)
    case Record(fs) => forall i :: 0 <= i < |fs| ==> IsNf(fs[i].value)
    case Array(es) => forall i :: 0 <= i < |es| ==> IsNf(es[i])
    case Neutral(_, _) => false
  }

  /**
   * `Value::head_app`: the head and spine of a neutral value that is an
   * application of a head, and nothing for any other value.
   */
  function HeadApp(v: Value): (r: Option<(Head, Spine)>)
    ensures r.Some? <==> v.Neutral? && v.neutral.Head?
    ensures r.Some? ==> v == Value.Neutral(Neutral.Head(r.value.0), r.value.1)
  {
    if v.Neutral? && v.neutral.Head? then Some((v.neutral.head, v.spine)) else None
  }

  /**
   * `Value::free_var_app`: the free variable, shift and spine of an
   * application whose head is a free variable, and nothing otherwise.
   */
  function FreeVarApp(v: Value): (r: Option<(FreeVar, LevelShift, Spine)>)
    ensures r.Some? <==> HeadApp(v).Some? && HeadApp(v).value.0.Var? && HeadApp(v).value.0.variable.Free?
    ensures r.Some? ==>
      v == Value.Neutral(Neutral.Head(Head.Var(Var.Free(r.value.0), r.value.1)), r.value.2)
  {
    match HeadApp(v)
    case Some((head, spine)) =>
      (match head
       case Var(Free(x), shift) => Some((x, shift, spine))
       case _ => None)
    case None => None
  }

  /**
   * `Value::var`: an application of a variable head to no arguments, so it
   * is in neither normal form; it has a free-variable head exactly when the
   * variable is free.
   */
  function VarValue(x: Var, shift: LevelShift): (r: Value)
    ensures HeadApp(r) == Some((Head.Var(x, shift), []))
    ensures x.Free? ==> FreeVarApp(r) == Some((x.free, shift, []))
    ensures x.Bound? ==> FreeVarApp(r) == None
    ensures !IsWhnf(r) && !IsNf(r)
  {
    Value.Neutral(Neutral.Head(Head.Var(x, shift)), [])
  }

  /** A value with an applied head is never in (weak head) normal form. */
  lemma HeadAppNotNormal(v: Value)
    requires HeadApp(v).Some?
    ensures !IsWhnf(v) && !IsNf(v)
  {
  }
}
