/**
 * Shifting universe levels (`RcValue::shift_universes` and
 * `RcNeutral::shift_universes`, src/syntax/core.rs).
 *
 * The source updates the value in place through `Rc::make_mut`, adding the
 * shift to every universe level it reaches with `+=`. Here the shift is a
 * specification function, `Shifted`, and a pair of recursive methods that
 * update the parts of a value one at a time and are proved to compute it.
 */
module CoreShift {
  import opened Syntax
  import opened CoreSyntax
  import opened CoreValue

  /**
   * Every universe level reachable through values, spines, extern types
   * and clause bodies stays below 2^32 when raised by `s`. Rust's `+=` on
   * `u32` panics otherwise (in a debug build).
   */
  predicate Fits(v: Value, s: LevelShift)
    decreases v
  {
    match v
    case Universe(l) => l.value as int + s.value as int < U32_LIMIT
    case Literal(_) => true
    case Pi(_, ann, body) => Fits(ann, s) && Fits(body, s)
    case Lam(_, ann, body) => Fits(ann, s) && Fits(body, s)
    case RecordType(fs) => forall i :: 0 <= i < |fs| ==> Fits(fs[i].value, s)
    case Record(fs) => forall i :: 0 <= i < |fs| ==> Fits(fs[i].value, s)
    case Array(es) => forall i :: 0 <= i < |es| ==> Fits(es[i], s)
    case Neutral(n, spine) => FitsNeutral(n, s) && forall i :: 0 <= i < |spine| ==> Fits(spine[i], s)
  }

  predicate FitsNeutral(n: Neutral, s: LevelShift)
    decreases n
  {
    match n
    case Head(Var(_, _)) => true
    case Head(Extern(_, ty)) => Fits(ty, s)
    case If(c, a, b) => FitsNeutral(c, s) && Fits(a, s) && Fits(b, s)
    case Proj(e, _) => FitsNeutral(e, s)
    case Case(e, cs) => FitsNeutral(e, s) && forall i :: 0 <= i < |cs| ==> Fits(cs[i].body, s)
  }

  /**
   * `v` and `r` have the same outermost constructor, with the same
   * literal, binders, labels, and numbers of fields, elements and spine
   * arguments.
   */
  predicate SameValueShape(v: Value, r: Value) {
    match v
    case Universe(_) => r.Universe?
    case Literal(_) => r == v
    case Pi(b, _, _) => r.Pi? && r.binder == b
    case Lam(b, _, _) => r.Lam? && r.binder == b
    case RecordType(fs) => r.RecordType? && ValueFieldKeys(r.fields) == ValueFieldKeys(fs)
    case Record(fs) => r.Record? && ValueFieldKeys(r.fields) == ValueFieldKeys(fs)
    case Array(es) => r.Array? && |r.elems| == |es|
    case Neutral(n, spine) => r.Neutral? && |r.spine| == |spine| && SameNeutralShape(n, r.neutral)
  }

  /**
   * The same as `SameValueShape` for neutral values; in addition a
   * variable head, shift included, is unchanged, and case patterns are
   * unchanged.
   */
  predicate SameNeutralShape(n: Neutral, m: Neutral) {
    match n
    case Head(Var(_, _)) => m == n
    case Head(Extern(name, _)) => m.Head? && m.head.Extern? && m.head.name == name
    case If(_, _, _) => m.If?
    case Proj(_, l) => m.Proj? && m.fieldLabel == l
    case Case(_, cs) =>
      m.Case? && |m.clauses| == |cs|
      && forall i :: 0 <= i < |cs| ==> m.clauses[i].pattern == cs[i].pattern
  }

  /** The value with every reachable universe level raised by `s`. */
  function Shifted(v: Value, s: LevelShift): (r: Value)
    requires Fits(v, s)
    ensures SameValueShape(v, r)
    ensures v.Universe? ==> r == Value.Universe(ShiftLevel(v.level, s))
    decreases v
  {
    match v
    case Universe(l) => Value.Universe(ShiftLevel(l, s))
    case Literal(_) => v
    case Pi(b, ann, body) => Value.Pi(b, Shifted(ann, s), Shifted(body, s))
    case Lam(b, ann, body) => Value.Lam(b, Shifted(ann, s), Shifted(body, s))
    case RecordType(fs) =>
      Value.RecordType(seq(|fs|, i requires 0 <= i < |fs| =>
        ValueField(fs[i].fieldLabel, fs[i].binder, Shifted(fs[i].value, s))))
    case Record(fs) =>
      Value.Record(seq(|fs|, i requires 0 <= i < |fs| =>
        ValueField(fs[i].fieldLabel, fs[i].binder, Shifted(fs[i].value, s))))
    case Array(es) =>
      Value.Array(seq(|es|, i requires 0 <= i < |es| => Shifted(es[i], s)))
    case Neutral(n, spine) =>
      Value.Neutral(ShiftedNeutral(n, s), seq(|spine|, i requires 0 <= i < |spine| => Shifted(spine[i], s)))
  }

  /** The neutral value with every reachable universe level raised by `s`; patterns are not touched. */
  function ShiftedNeutral(n: Neutral, s: LevelShift): (r: Neutral)
    requires FitsNeutral(n, s)
    ensures SameNeutralShape(n, r)
    decreases n
  {
    match n
    case Head(Var(_, _)) => n
    case Head(Extern(name, ty)) => Neutral.Head(Head.Extern(name, Shifted(ty, s)))
    case If(c, a, b) => Neutral.If(ShiftedNeutral(c, s), Shifted(a, s), Shifted(b, s))
    case Proj(e, l) => Neutral.Proj(ShiftedNeutral(e, s), l)
    case Case(e, cs) =>
      Neutral.Case(ShiftedNeutral(e, s), seq(|cs|, i requires 0 <= i < |cs| =>
        ValueClause(cs[i].pattern, Shifted(cs[i].body, s))))
  }

  /**
   * `RcValue::shift_universes`: rebuilds the value part by part, in the
   * order the source visits them, and computes `Shifted`.
   */
  method ShiftUniverses(v: Value, s: LevelShift) returns (r: Value)
    requires Fits(v, s)
    ensures r == Shifted(v, s)
    decreases v, 1
  {
    match v {
      case Universe(l) =>
        var level := new LevelPlace(l);
        level.AddAssign(s);
        r := Value.Universe(level.current);
      case Literal(_) =>
        r := v;
      case Pi(b, ann, body) =>
        var ann' := ShiftUniverses(ann, s);
        var body' := ShiftUniverses(body, s);
        r := Value.Pi(b, ann', body');
      case Lam(b, ann, body) =>
        var ann' := ShiftUniverses(ann, s);
        var body' := ShiftUniverses(body, s);
        r := Value.Lam(b, ann', body');
      case RecordType(fs) =>
        var fs' := ShiftFields(v, fs, s);
        r := Value.RecordType(fs');
      case Record(fs) =>
        var fs' := ShiftFields(v, fs, s);
        r := Value.Record(fs');
      case Array(es) =>
        var es' := ShiftEach(v, es, s);
        r := Value.Array(es');
      case Neutral(n, spine) =>
        var n' := ShiftNeutralUniverses(n, s);
        var spine' := ShiftEach(v, spine, s);
        r := Value.Neutral(n', spine');
    }
  }

  /** The loop over a record's fields: shifts each field's value in turn. */
  method ShiftFields(parent: Value, fs: seq<ValueField>, s: LevelShift) returns (r: seq<ValueField>)
    requires forall i :: 0 <= i < |fs| ==> fs[i] < parent
    requires forall i :: 0 <= i < |fs| ==> Fits(fs[i].value, s)
    ensures |r| == |fs|
    ensures forall i :: 0 <= i < |fs| ==>
      r[i] == ValueField(fs[i].fieldLabel, fs[i].binder, Shifted(fs[i].value, s))
    decreases parent, 0
  {
    r := fs;
    for i := 0 to |fs|
      invariant |r| == |fs|
      invariant forall j :: 0 <= j < i ==>
        r[j] == ValueField(fs[j].fieldLabel, fs[j].binder, Shifted(fs[j].value, s))
      invariant forall j :: i <= j < |fs| ==> r[j] == fs[j]
    {
      assert fs[i].value < fs[i];
      var value := ShiftUniverses(fs[i].value, s);
      r := r[i := ValueField(fs[i].fieldLabel, fs[i].binder, value)];
    }
  }

  /** The loop over array elements or spine arguments: shifts each in turn. */
  method ShiftEach(parent: Value, es: seq<Value>, s: LevelShift) returns (r: seq<Value>)
    requires forall i :: 0 <= i < |es| ==> es[i] < parent
    requires forall i :: 0 <= i < |es| ==> Fits(es[i], s)
    ensures |r| == |es|
    ensures forall i :: 0 <= i < |es| ==> r[i] == Shifted(es[i], s)
    decreases parent, 0
  {
    r := es;
    for i := 0 to |es|
      invariant |r| == |es|
      invariant forall j :: 0 <= j < i ==> r[j] == Shifted(es[j], s)
      invariant forall j :: i <= j < |es| ==> r[j] == es[j]
    {
      var e := ShiftUniverses(es[i], s);
      r := r[i := e];
    }
  }

  /**
   * `RcNeutral::shift_universes`: a variable head keeps its own shift, and
   * case patterns are left as they are; everything else is shifted.
   */
  method ShiftNeutralUniverses(n: Neutral, s: LevelShift) returns (r: Neutral)
    requires FitsNeutral(n, s)
    ensures r == ShiftedNeutral(n, s)
    decreases n, 1
  {
    match n {
      case Head(Var(_, _)) =>
        r := n;
      case Head(Extern(name, ty)) =>
        var ty' := ShiftUniverses(ty, s);
        r := Neutral.Head(Head.Extern(name, ty'));
      case If(c, a, b) =>
        var c' := ShiftNeutralUniverses(c, s);
        var a' := ShiftUniverses(a, s);
        var b' := ShiftUniverses(b, s);
        r := Neutral.If(c', a', b');
      case Proj(e, l) =>
        var e' := ShiftNeutralUniverses(e, s);
        r := Neutral.Proj(e', l);
      case Case(e, cs) =>
        var e' := ShiftNeutralUniverses(e, s);
        var cs' := cs;
        for i := 0 to |cs|
          invariant |cs'| == |cs|
          invariant forall j :: 0 <= j < i ==> cs'[j] == ValueClause(cs[j].pattern, Shifted(cs[j].body, s))
          invariant forall j :: i <= j < |cs| ==> cs'[j] == cs[j]
        {
          assert cs[i].body < cs[i];
          var body := ShiftUniverses(cs[i].body, s);
          cs' := cs'[i := ValueClause(cs[i].pattern, body)];
        }
        r := Neutral.Case(e', cs');
    }
  }

  /** A shift by zero always fits and changes nothing. */
  lemma {:induction false} ShiftZero(v: Value)
    ensures Fits(v, LevelShift(0)) && Shifted(v, LevelShift(0)) == v
    decreases v
  {
    var z := LevelShift(0);
    match v
    case Universe(l) =>
    case Literal(_) =>
    case Pi(_, ann, body) => ShiftZero(ann); ShiftZero(body);
    case Lam(_, ann, body) => ShiftZero(ann); ShiftZero(body);
    case RecordType(fs) =>
      forall i | 0 <= i < |fs| ensures Fits(fs[i].value, z) && Shifted(fs[i].value, z) == fs[i].value {
        assert fs[i].value < fs[i];
        ShiftZero(fs[i].value);
      }
      assert Shifted(v, z).fields == fs;
    case Record(fs) =>
      forall i | 0 <= i < |fs| ensures Fits(fs[i].value, z) && Shifted(fs[i].value, z) == fs[i].value {
        assert fs[i].value < fs[i];
        ShiftZero(fs[i].value);
      }
      assert Shifted(v, z).fields == fs;
    case Array(es) =>
      forall i | 0 <= i < |es| ensures Fits(es[i], z) && Shifted(es[i], z) == es[i] {
        ShiftZero(es[i]);
      }
      assert Shifted(v, z).elems == es;
    case Neutral(n, spine) =>
      ShiftZeroNeutral(n);
      forall i | 0 <= i < |spine| ensures Fits(spine[i], z) && Shifted(spine[i], z) == spine[i] {
        ShiftZero(spine[i]);
      }
      assert Shifted(v, z).spine == spine;
  }

  lemma {:induction false} ShiftZeroNeutral(n: Neutral)
    ensures FitsNeutral(n, LevelShift(0)) && ShiftedNeutral(n, LevelShift(0)) == n
    decreases n
  {
    var z := LevelShift(0);
    match n
    case Head(Var(_, _)) =>
    case Head(Extern(_, ty)) => ShiftZero(ty);
    case If(c, a, b) => ShiftZeroNeutral(c); ShiftZero(a); ShiftZero(b);
    case Proj(e, _) => ShiftZeroNeutral(e);
    case Case(e, cs) =>
      ShiftZeroNeutral(e);
      forall i | 0 <= i < |cs| ensures Fits(cs[i].body, z) && Shifted(cs[i].body, z) == cs[i].body {
        assert cs[i].body < cs[i];
        ShiftZero(cs[i].body);
      }
      assert ShiftedNeutral(n, z).clauses == cs;
  }

  /**
   * Shifting by `a` and then by `b` is shifting once by `a + b`: both
   * steps fit whenever the combined shift does.
   */
  lemma {:induction false} ShiftTwice(v: Value, a: LevelShift, b: LevelShift)
    requires a.value as int + b.value as int < U32_LIMIT
    requires Fits(v, AddShifts(a, b))
    ensures Fits(v, a) && Fits(Shifted(v, a), b)
    ensures Shifted(Shifted(v, a), b) == Shifted(v, AddShifts(a, b))
    decreases v, 1
  {
    match v
    case Universe(l) => ShiftLevelTwice(l, a, b);
    case Literal(_) =>
    case Pi(_, ann, body) => ShiftTwice(ann, a, b); ShiftTwice(body, a, b);
    case Lam(_, ann, body) => ShiftTwice(ann, a, b); ShiftTwice(body, a, b);
    case RecordType(_) => ShiftTwiceInFields(v, a, b);
    case Record(_) => ShiftTwiceInFields(v, a, b);
    case _ => ShiftTwiceInSequences(v, a, b);
  }

  /** `ShiftTwice` for arrays and neutral values with their spines. */
  lemma {:induction false} ShiftTwiceInSequences(v: Value, a: LevelShift, b: LevelShift)
    requires a.value as int + b.value as int < U32_LIMIT
    requires Fits(v, AddShifts(a, b))
    requires v.Array? || v.Neutral?
    ensures Fits(v, a) && Fits(Shifted(v, a), b)
    ensures Shifted(Shifted(v, a), b) == Shifted(v, AddShifts(a, b))
    decreases v, 0
  {
    var ab := AddShifts(a, b);
    match v
    case Array(es) =>
      forall i | 0 <= i < |es|
        ensures Fits(es[i], a) && Fits(Shifted(es[i], a), b)
        ensures Shifted(Shifted(es[i], a), b) == Shifted(es[i], ab)
      {
        ShiftTwice(es[i], a, b);
      }
      assert Shifted(Shifted(v, a), b).elems == Shifted(v, ab).elems;
    case Neutral(n, spine) =>
      ShiftTwiceNeutral(n, a, b);
      forall i | 0 <= i < |spine|
        ensures Fits(spine[i], a) && Fits(Shifted(spine[i], a), b)
        ensures Shifted(Shifted(spine[i], a), b) == Shifted(spine[i], ab)
      {
        ShiftTwice(spine[i], a, b);
      }
      assert Shifted(Shifted(v, a), b).spine == Shifted(v, ab).spine;
  }

  /** `ShiftTwice` for records and record types. */
  lemma {:induction false} ShiftTwiceInFields(v: Value, a: LevelShift, b: LevelShift)
    requires a.value as int + b.value as int < U32_LIMIT
    requires Fits(v, AddShifts(a, b))
    requires v.RecordType? || v.Record?
    ensures Fits(v, a) && Fits(Shifted(v, a), b)
    ensures Shifted(Shifted(v, a), b) == Shifted(v, AddShifts(a, b))
    decreases v, 0
  {
    var ab := AddShifts(a, b);
    match v
    case RecordType(fs) =>
      forall i | 0 <= i < |fs|
        ensures Fits(fs[i].value, a) && Fits(Shifted(fs[i].value, a), b)
        ensures Shifted(Shifted(fs[i].value, a), b) == Shifted(fs[i].value, ab)
      {
        assert fs[i].value < fs[i];
        ShiftTwice(fs[i].value, a, b);
      }
      assert Shifted(Shifted(v, a), b).fields == Shifted(v, ab).fields;
    case Record(fs) =>
      forall i | 0 <= i < |fs|
        ensures Fits(fs[i].value, a) && Fits(Shifted(fs[i].value, a), b)
        ensures Shifted(Shifted(fs[i].value, a), b) == Shifted(fs[i].value, ab)
      {
        assert fs[i].value < fs[i];
        ShiftTwice(fs[i].value, a, b);
      }
      assert Shifted(Shifted(v, a), b).fields == Shifted(v, ab).fields;
  }

  lemma {:induction false} ShiftTwiceNeutral(n: Neutral, a: LevelShift, b: LevelShift)
    requires a.value as int + b.value as int < U32_LIMIT
    requires FitsNeutral(n, AddShifts(a, b))
    ensures FitsNeutral(n, a) && FitsNeutral(ShiftedNeutral(n, a), b)
    ensures ShiftedNeutral(ShiftedNeutral(n, a), b) == ShiftedNeutral(n, AddShifts(a, b))
    decreases n
  {
    var ab := AddShifts(a, b);
    match n
    case Head(Var(_, _)) =>
    case Head(Extern(_, ty)) => ShiftTwice(ty, a, b);
    case If(c, x, y) => ShiftTwiceNeutral(c, a, b); ShiftTwice(x, a, b); ShiftTwice(y, a, b);
    case Proj(e, _) => ShiftTwiceNeutral(e, a, b);
    case Case(e, cs) =>
      ShiftTwiceNeutral(e, a, b);
      forall i | 0 <= i < |cs|
        ensures Fits(cs[i].body, a) && Fits(Shifted(cs[i].body, a), b)
        ensures Shifted(Shifted(cs[i].body, a), b) == Shifted(cs[i].body, ab)
      {
        assert cs[i].body < cs[i];
        ShiftTwice(cs[i].body, a, b);
      }
      assert ShiftedNeutral(ShiftedNeutral(n, a), b).clauses == ShiftedNeutral(n, ab).clauses;
  }

  /** Shifting universes neither creates nor removes neutral values. */
  lemma {:induction false} ShiftPreservesNormalForms(v: Value, s: LevelShift)
    requires Fits(v, s)
    ensures IsWhnf(Shifted(v, s)) == IsWhnf(v)
    ensures IsNf(Shifted(v, s)) == IsNf(v)
    decreases v
  {
    match v
    case Universe(_) =>
    case Literal(_) =>
    case Pi(_, ann, body) => ShiftPreservesNormalForms(ann, s); ShiftPreservesNormalForms(body, s);
    case Lam(_, ann, body) => ShiftPreservesNormalForms(ann, s); ShiftPreservesNormalForms(body, s);
    case RecordType(fs) =>
      forall i | 0 <= i < |fs| ensures IsNf(Shifted(v, s).fields[i].value) == IsNf(fs[i].value) {
        assert fs[i].value < fs[i];
        ShiftPreservesNormalForms(fs[i].value, s);
      }
    case Record(fs) =>
      forall i | 0 <= i < |fs| ensures IsNf(Shifted(v, s).fields[i].value) == IsNf(fs[i].value) {
        assert fs[i].value < fs[i];
        ShiftPreservesNormalForms(fs[i].value, s);
      }
    case Array(es) =>
      forall i | 0 <= i < |es| ensures IsNf(Shifted(v, s).elems[i]) == IsNf(es[i]) {
        ShiftPreservesNormalForms(es[i], s);
      }
    case Neutral(_, _) =>
  }

  /**
   * A stuck application of a free variable stays one: the variable and its
   * own shift are kept, and only the arguments are shifted.
   */
  lemma ShiftFreeVarApp(v: Value, s: LevelShift)
    requires Fits(v, s) && FreeVarApp(v).Some?
    ensures FreeVarApp(Shifted(v, s)).Some?
    ensures FreeVarApp(Shifted(v, s)).value.0 == FreeVarApp(v).value.0
    ensures FreeVarApp(Shifted(v, s)).value.1 == FreeVarApp(v).value.1
    ensures FreeVarApp(Shifted(v, s)).value.2 == Shifted(v, s).spine
    ensures forall i :: 0 <= i < |v.spine| ==> Shifted(v, s).spine[i] == Shifted(v.spine[i], s)
  {
  }

  // ---------------------------------------------------------------------
  // What a shift changes, stated independently of `Shifted`'s recursion

  /** The concatenation of a sequence of sequences. */
  function Flatten(xss: seq<seq<Level>>): (r: seq<Level>)
  {
    if |xss| == 0 then [] else xss[0] + Flatten(xss[1..])
  }

  /**
   * Every universe level reachable in `v`, in the order `shift_universes`
   * visits them: annotations before bodies, fields, elements and clauses in
   * order, the neutral part before the spine. Patterns are not visited.
   */
  function Levels(v: Value): seq<Level>
    decreases v
  {
    match v
    case Universe(l) => [l]
    case Literal(_) => []
    case Pi(_, ann, body) => Levels(ann) + Levels(body)
    case Lam(_, ann, body) => Levels(ann) + Levels(body)
    case RecordType(fs) => Flatten(seq(|fs|, i requires 0 <= i < |fs| => Levels(fs[i].value)))
    case Record(fs) => Flatten(seq(|fs|, i requires 0 <= i < |fs| => Levels(fs[i].value)))
    case Array(es) => Flatten(seq(|es|, i requires 0 <= i < |es| => Levels(es[i])))
    case Neutral(n, spine) =>
      NeutralLevels(n) + Flatten(seq(|spine|, i requires 0 <= i < |spine| => Levels(spine[i])))
  }

  function NeutralLevels(n: Neutral): seq<Level>
    decreases n
  {
    match n
    case Head(Var(_, _)) => []
    case Head(Extern(_, ty)) => Levels(ty)
    case If(c, a, b) => NeutralLevels(c) + Levels(a) + Levels(b)
    case Proj(e, _) => NeutralLevels(e)
    case Case(e, cs) => NeutralLevels(e) + Flatten(seq(|cs|, i requires 0 <= i < |cs| => Levels(cs[i].body)))
  }

  /** The value with every reachable universe level replaced by level 0. */
  function EraseLevels(v: Value): Value
    decreases v
  {
    match v
    case Universe(_) => Value.Universe(Level(0))
    case Literal(_) => v
    case Pi(b, ann, body) => Value.Pi(b, EraseLevels(ann), EraseLevels(body))
    case Lam(b, ann, body) => Value.Lam(b, EraseLevels(ann), EraseLevels(body))
    case RecordType(fs) =>
      Value.RecordType(seq(|fs|, i requires 0 <= i < |fs| =>
        ValueField(fs[i].fieldLabel, fs[i].binder, EraseLevels(fs[i].value))))
    case Record(fs) =>
      Value.Record(seq(|fs|, i requires 0 <= i < |fs| =>
        ValueField(fs[i].fieldLabel, fs[i].binder, EraseLevels(fs[i].value))))
    case Array(es) => Value.Array(seq(|es|, i requires 0 <= i < |es| => EraseLevels(es[i])))
    case Neutral(n, spine) =>
      Value.Neutral(EraseNeutralLevels(n), seq(|spine|, i requires 0 <= i < |spine| => EraseLevels(spine[i])))
  }

  function EraseNeutralLevels(n: Neutral): Neutral
    decreases n
  {
    match n
    case Head(Var(_, _)) => n
    case Head(Extern(name, ty)) => Neutral.Head(Head.Extern(name, EraseLevels(ty)))
    case If(c, a, b) => Neutral.If(EraseNeutralLevels(c), EraseLevels(a), EraseLevels(b))
    case Proj(e, l) => Neutral.Proj(EraseNeutralLevels(e), l)
    case Case(e, cs) =>
      Neutral.Case(EraseNeutralLevels(e), seq(|cs|, i requires 0 <= i < |cs| =>
        ValueClause(cs[i].pattern, EraseLevels(cs[i].body))))
  }

  /** `ys` is `xs` with every level raised by `s`. */
  predicate RaisedBy(ys: seq<Level>, xs: seq<Level>, s: LevelShift) {
    |ys| == |xs|
    && forall i :: 0 <= i < |xs| ==> ys[i].value as int == xs[i].value as int + s.value as int
  }

  lemma {:induction false} RaisedFlatten(yss: seq<seq<Level>>, xss: seq<seq<Level>>, s: LevelShift)
    requires |yss| == |xss|
    requires forall i :: 0 <= i < |xss| ==> RaisedBy(yss[i], xss[i], s)
    ensures RaisedBy(Flatten(yss), Flatten(xss), s)
    decreases |xss|
  {
    if |xss| > 0 {
      RaisedFlatten(yss[1..], xss[1..], s);
      RaisedAppend(yss[0], xss[0], Flatten(yss[1..]), Flatten(xss[1..]), s);
    }
  }

  lemma RaisedAppend(ys1: seq<Level>, xs1: seq<Level>, ys2: seq<Level>, xs2: seq<Level>, s: LevelShift)
    requires RaisedBy(ys1, xs1, s) && RaisedBy(ys2, xs2, s)
    ensures RaisedBy(ys1 + ys2, xs1 + xs2, s)
  {
  }

  /**
   * A shift raises every reachable level by the shift and keeps their
   * number and order.
   */
  lemma {:induction false} ShiftRaisesLevels(v: Value, s: LevelShift)
    requires Fits(v, s)
    ensures RaisedBy(Levels(Shifted(v, s)), Levels(v), s)
    decreases v, 1
  {
    match v
    case Universe(_) =>
    case Literal(_) =>
    case Pi(_, ann, body) =>
      ShiftRaisesLevels(ann, s);
      ShiftRaisesLevels(body, s);
      RaisedAppend(Levels(Shifted(ann, s)), Levels(ann), Levels(Shifted(body, s)), Levels(body), s);
    case Lam(_, ann, body) =>
      ShiftRaisesLevels(ann, s);
      ShiftRaisesLevels(body, s);
      RaisedAppend(Levels(Shifted(ann, s)), Levels(ann), Levels(Shifted(body, s)), Levels(body), s);
    case RecordType(_) => FieldsRaiseLevels(v, s);
    case Record(_) => FieldsRaiseLevels(v, s);
    case _ => SequencesRaiseLevels(v, s);
  }

  lemma {:induction false} FieldsRaiseLevels(v: Value, s: LevelShift)
    requires Fits(v, s) && (v.RecordType? || v.Record?)
    ensures RaisedBy(Levels(Shifted(v, s)), Levels(v), s)
    decreases v, 0
  {
    var fs, gs := v.fields, Shifted(v, s).fields;
    var xss := seq(|fs|, i requires 0 <= i < |fs| => Levels(fs[i].value));
    var yss := seq(|gs|, i requires 0 <= i < |gs| => Levels(gs[i].value));
    forall i | 0 <= i < |fs| ensures RaisedBy(yss[i], xss[i], s) {
      assert fs[i].value < fs[i];
      ShiftRaisesLevels(fs[i].value, s);
    }
    RaisedFlatten(yss, xss, s);
  }

  lemma {:induction false} SequencesRaiseLevels(v: Value, s: LevelShift)
    requires Fits(v, s) && (v.Array? || v.Neutral?)
    ensures RaisedBy(Levels(Shifted(v, s)), Levels(v), s)
    decreases v, 0
  {
    var es := if v.Array? then v.elems else v.spine;
    var fs := if v.Array? then Shifted(v, s).elems else Shifted(v, s).spine;
    var xss := seq(|es|, i requires 0 <= i < |es| => Levels(es[i]));
    var yss := seq(|fs|, i requires 0 <= i < |fs| => Levels(fs[i]));
    forall i | 0 <= i < |es| ensures RaisedBy(yss[i], xss[i], s) {
      ShiftRaisesLevels(es[i], s);
    }
    RaisedFlatten(yss, xss, s);
    if v.Neutral? {
      NeutralShiftRaisesLevels(v.neutral, s);
      RaisedAppend(NeutralLevels(ShiftedNeutral(v.neutral, s)), NeutralLevels(v.neutral),
                   Flatten(yss), Flatten(xss), s);
    }
  }

  lemma {:induction false} NeutralShiftRaisesLevels(n: Neutral, s: LevelShift)
    requires FitsNeutral(n, s)
    ensures RaisedBy(NeutralLevels(ShiftedNeutral(n, s)), NeutralLevels(n), s)
    decreases n
  {
    match n
    case Head(Var(_, _)) =>
    case Head(Extern(_, ty)) => ShiftRaisesLevels(ty, s);
    case If(c, a, b) =>
      NeutralShiftRaisesLevels(c, s);
      ShiftRaisesLevels(a, s);
      ShiftRaisesLevels(b, s);
      RaisedAppend(NeutralLevels(ShiftedNeutral(c, s)), NeutralLevels(c), Levels(Shifted(a, s)), Levels(a), s);
      RaisedAppend(NeutralLevels(ShiftedNeutral(c, s)) + Levels(Shifted(a, s)), NeutralLevels(c) + Levels(a),
                   Levels(Shifted(b, s)), Levels(b), s);
    case Proj(e, _) => NeutralShiftRaisesLevels(e, s);
    case Case(e, cs) =>
      NeutralShiftRaisesLevels(e, s);
      var ds := ShiftedNeutral(n, s).clauses;
      var xss := seq(|cs|, i requires 0 <= i < |cs| => Levels(cs[i].body));
      var yss := seq(|ds|, i requires 0 <= i < |ds| => Levels(ds[i].body));
      forall i | 0 <= i < |cs| ensures RaisedBy(yss[i], xss[i], s) {
        assert cs[i].body < cs[i];
        ShiftRaisesLevels(cs[i].body, s);
      }
      RaisedFlatten(yss, xss, s);
      RaisedAppend(NeutralLevels(ShiftedNeutral(e, s)), NeutralLevels(e), Flatten(yss), Flatten(xss), s);
  }

  /** Apart from its universe levels, a shifted value is the value it came from. */
  lemma {:induction false} ShiftKeepsErasure(v: Value, s: LevelShift)
    requires Fits(v, s)
    ensures EraseLevels(Shifted(v, s)) == EraseLevels(v)
    decreases v, 1
  {
    match v
    case Universe(_) =>
    case Literal(_) =>
    case Pi(_, ann, body) => ShiftKeepsErasure(ann, s); ShiftKeepsErasure(body, s);
    case Lam(_, ann, body) => ShiftKeepsErasure(ann, s); ShiftKeepsErasure(body, s);
    case RecordType(_) => FieldsKeepErasure(v, s);
    case Record(_) => FieldsKeepErasure(v, s);
    case _ => SequencesKeepErasure(v, s);
  }

  lemma {:induction false} FieldsKeepErasure(v: Value, s: LevelShift)
    requires Fits(v, s) && (v.RecordType? || v.Record?)
    ensures EraseLevels(Shifted(v, s)) == EraseLevels(v)
    decreases v, 0
  {
    var fs := v.fields;
    forall i | 0 <= i < |fs| ensures EraseLevels(Shifted(fs[i].value, s)) == EraseLevels(fs[i].value) {
      assert fs[i].value < fs[i];
      ShiftKeepsErasure(fs[i].value, s);
    }
    assert EraseLevels(Shifted(v, s)).fields == EraseLevels(v).fields;
  }

  lemma {:induction false} SequencesKeepErasure(v: Value, s: LevelShift)
    requires Fits(v, s) && (v.Array? || v.Neutral?)
    ensures EraseLevels(Shifted(v, s)) == EraseLevels(v)
    decreases v, 0
  {
    match v
    case Array(es) =>
      forall i | 0 <= i < |es| ensures EraseLevels(Shifted(es[i], s)) == EraseLevels(es[i]) {
        ShiftKeepsErasure(es[i], s);
      }
      assert EraseLevels(Shifted(v, s)).elems == EraseLevels(v).elems;
    case Neutral(n, spine) =>
      NeutralShiftKeepsErasure(n, s);
      forall i | 0 <= i < |spine| ensures EraseLevels(Shifted(spine[i], s)) == EraseLevels(spine[i]) {
        ShiftKeepsErasure(spine[i], s);
      }
      assert EraseLevels(Shifted(v, s)).spine == EraseLevels(v).spine;
  }

  lemma {:induction false} NeutralShiftKeepsErasure(n: Neutral, s: LevelShift)
    requires FitsNeutral(n, s)
    ensures EraseNeutralLevels(ShiftedNeutral(n, s)) == EraseNeutralLevels(n)
    decreases n
  {
    match n
    case Head(Var(_, _)) =>
    case Head(Extern(_, ty)) => ShiftKeepsErasure(ty, s);
    case If(c, a, b) =>
      NeutralShiftKeepsErasure(c, s);
      ShiftKeepsErasure(a, s);
      ShiftKeepsErasure(b, s);
    case Proj(e, _) => NeutralShiftKeepsErasure(e, s);
    case Case(e, cs) =>
      NeutralShiftKeepsErasure(e, s);
      forall i | 0 <= i < |cs| ensures EraseLevels(Shifted(cs[i].body, s)) == EraseLevels(cs[i].body) {
        assert cs[i].body < cs[i];
        ShiftKeepsErasure(cs[i].body, s);
      }
      assert EraseNeutralLevels(ShiftedNeutral(n, s)).clauses == EraseNeutralLevels(n).clauses;
  }

  /** Every level of `xs` stays below 2^32 when raised by `s`. */
  predicate AllFit(xs: seq<Level>, s: LevelShift) {
    forall i :: 0 <= i < |xs| ==> xs[i].value as int + s.value as int < U32_LIMIT
  }

  lemma {:induction false} AllFitFlatten(xss: seq<seq<Level>>, s: LevelShift)
    ensures AllFit(Flatten(xss), s) <==> forall i :: 0 <= i < |xss| ==> AllFit(xss[i], s)
    decreases |xss|
  {
    if |xss| > 0 {
      AllFitFlatten(xss[1..], s);
      AllFitAppend(xss[0], Flatten(xss[1..]), s);
      forall i | 1 <= i < |xss| ensures xss[i] == xss[1..][i - 1] { }
    }
  }

  lemma AllFitAppend(xs: seq<Level>, ys: seq<Level>, s: LevelShift)
    ensures AllFit(xs + ys, s) <==> AllFit(xs, s) && AllFit(ys, s)
  {
    if AllFit(xs, s) && AllFit(ys, s) {
      forall i | 0 <= i < |xs + ys| ensures (xs + ys)[i].value as int + s.value as int < U32_LIMIT {
        if i >= |xs| { assert (xs + ys)[i] == ys[i - |xs|]; }
      }
    }
    if AllFit(xs + ys, s) {
      forall i | 0 <= i < |xs| ensures xs[i].value as int + s.value as int < U32_LIMIT {
        assert (xs + ys)[i] == xs[i];
      }
      forall i | 0 <= i < |ys| ensures ys[i].value as int + s.value as int < U32_LIMIT {
        assert (xs + ys)[|xs| + i] == ys[i];
      }
    }
  }

  /**
   * `Fits`, the condition under which the source's `+=` never overflows,
   * holds exactly when every reachable level stays below 2^32 after the
   * shift.
   */
  lemma {:induction false} FitsByLevels(v: Value, s: LevelShift)
    ensures Fits(v, s) <==> AllFit(Levels(v), s)
    decreases v, 1
  {
    match v
    case Universe(l) => assert Levels(v)[0] == l;
    case Literal(_) =>
    case Pi(_, ann, body) =>
      FitsByLevels(ann, s);
      FitsByLevels(body, s);
      AllFitAppend(Levels(ann), Levels(body), s);
    case Lam(_, ann, body) =>
      FitsByLevels(ann, s);
      FitsByLevels(body, s);
      AllFitAppend(Levels(ann), Levels(body), s);
    case RecordType(_) => FieldsFitByLevels(v, s);
    case Record(_) => FieldsFitByLevels(v, s);
    case _ => SequencesFitByLevels(v, s);
  }

  lemma {:induction false} FieldsFitByLevels(v: Value, s: LevelShift)
    requires v.RecordType? || v.Record?
    ensures Fits(v, s) <==> AllFit(Levels(v), s)
    decreases v, 0
  {
    var fs := v.fields;
    var xss := seq(|fs|, i requires 0 <= i < |fs| => Levels(fs[i].value));
    forall i | 0 <= i < |fs| ensures Fits(fs[i].value, s) <==> AllFit(xss[i], s) {
      assert fs[i].value < fs[i];
      FitsByLevels(fs[i].value, s);
    }
    AllFitFlatten(xss, s);
  }

  lemma {:induction false} SequencesFitByLevels(v: Value, s: LevelShift)
    requires v.Array? || v.Neutral?
    ensures Fits(v, s) <==> AllFit(Levels(v), s)
    decreases v, 0
  {
    var es := if v.Array? then v.elems else v.spine;
    var xss := seq(|es|, i requires 0 <= i < |es| => Levels(es[i]));
    forall i | 0 <= i < |es| ensures Fits(es[i], s) <==> AllFit(xss[i], s) {
      FitsByLevels(es[i], s);
    }
    AllFitFlatten(xss, s);
    if v.Neutral? {
      NeutralFitsByLevels(v.neutral, s);
      AllFitAppend(NeutralLevels(v.neutral), Flatten(xss), s);
    }
  }

  lemma {:induction false} NeutralFitsByLevels(n: Neutral, s: LevelShift)
    ensures FitsNeutral(n, s) <==> AllFit(NeutralLevels(n), s)
    decreases n
  {
    match n
    case Head(Var(_, _)) =>
    case Head(Extern(_, ty)) => FitsByLevels(ty, s);
    case If(c, a, b) =>
      NeutralFitsByLevels(c, s);
      FitsByLevels(a, s);
      FitsByLevels(b, s);
      AllFitAppend(NeutralLevels(c), Levels(a), s);
      AllFitAppend(NeutralLevels(c) + Levels(a), Levels(b), s);
    case Proj(e, _) => NeutralFitsByLevels(e, s);
    case Case(e, cs) =>
      NeutralFitsByLevels(e, s);
      var xss := seq(|cs|, i requires 0 <= i < |cs| => Levels(cs[i].body));
      forall i | 0 <= i < |cs| ensures Fits(cs[i].body, s) <==> AllFit(xss[i], s) {
        assert cs[i].body < cs[i];
        FitsByLevels(cs[i].body, s);
      }
      AllFitFlatten(xss, s);
      AllFitAppend(NeutralLevels(e), Flatten(xss), s);
  }
}
