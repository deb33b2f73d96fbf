/**
 * The core syntax (src/syntax/core.rs): terms, patterns, values and
 * neutral values.
 *
 * Terms and values are reference counted in the source (`RcTerm`,
 * `RcValue`, `RcNeutral`); sharing is not observable by any operation
 * modelled here, so they are plain values. A binding scope is kept as the
 * pair of its pattern and body, as the source uses them when it reads
 * `unsafe_pattern` and `unsafe_body` directly.
 */
module CoreSyntax {
  import opened Syntax

  /**
   * A free variable. Its identity is a unique number; the pretty name it
   * carries for printing plays no part in any operation modelled here.
   */
  datatype FreeVar = FreeVar(ident: nat)

  /** A variable bound by an enclosing scope. */
  datatype BoundVar = BoundVar(scope: nat, binding: nat)

  /** A variable occurrence: free, or bound by an enclosing scope. */
  datatype Var = Free(free: FreeVar) | Bound(bound: BoundVar)

  /** A binding occurrence of a name. */
  datatype Binder = Binder(free: FreeVar)

  /**
   * Literals. No operation here looks into a literal, so the integer
   * payloads are left unbounded and the floating point ones are kept as
   * their bit patterns.
   */
  datatype Literal =
    | Bool(boolValue: bool)
    | String(stringValue: string)
    | Char(charValue: char)
    | U8(intValue: int)
    | U16(intValue: int)
    | U32(intValue: int)
    | U64(intValue: int)
    | I8(intValue: int)
    | I16(intValue: int)
    | I32(intValue: int)
    | I64(intValue: int)
    | F32(f32Bits: bv32)
    | F64(f64Bits: bv64)

  datatype Pattern =
    | Ann(pattern: Pattern, ty: Term)
    | Binder(binder: Binder)
    | Var(variable: Var, shift: LevelShift)
    | Literal(lit: Literal)

  /** The core term syntax. */
  datatype Term =
    | Ann(term: Term, ty: Term)
    | Universe(level: Level)
    | Literal(lit: Literal)
    | Var(variable: Var, shift: LevelShift)
    | Extern(name: string, ty: Term)
    | Pi(binder: Binder, ann: Term, body: Term)
    | Lam(binder: Binder, ann: Term, body: Term)
    | App(head: Term, arg: Term)
    | If(cond: Term, ifTrue: Term, ifFalse: Term)
    | RecordType(fields: seq<TermField>)
    | Record(fields: seq<TermField>)
    | Proj(expr: Term, fieldLabel: Label)
    | Case(scrutinee: Term, clauses: seq<TermClause>)
    | Array(elems: seq<Term>)
    | Let(binder: Binder, ann: Term, body: Term)

  /** A field of a record or record type: its label, the name it binds, and its type or value. */
  datatype TermField = TermField(fieldLabel: Label, binder: Binder, term: Term)

  /** A case clause: the pattern and the body in its scope. */
  datatype TermClause = TermClause(pattern: Pattern, body: Term)

  /** Values: normal forms, or neutral terms stuck on a `Head`. */
  datatype Value =
    | Universe(level: Level)
    | Literal(lit: Literal)
    | Pi(binder: Binder, ann: Value, body: Value)
    | Lam(binder: Binder, ann: Value, body: Value)
    | RecordType(fields: seq<ValueField>)
    | Record(fields: seq<ValueField>)
    | Array(elems: seq<Value>)
    | Neutral(neutral: Neutral, spine: seq<Value>)

  datatype ValueField = ValueField(fieldLabel: Label, binder: Binder, value: Value)

  datatype ValueClause = ValueClause(pattern: Pattern, body: Value)

  /** The head of an application. */
  datatype Head =
    | Var(variable: Var, shift: LevelShift)
    | Extern(name: string, ty: Value)

  /** Neutral values, whose computation is stuck on a `Head`. */
  datatype Neutral =
    | Head(head: Head)
    | If(cond: Neutral, ifTrue: Value, ifFalse: Value)
    | Proj(expr: Neutral, fieldLabel: Label)
    | Case(scrutinee: Neutral, clauses: seq<ValueClause>)

  /** The arguments awaiting application to a neutral value. */
  type Spine = seq<Value>

  /**
   * The label and binder of each field, in order: what identifies a record's
   * fields. Term fields and value fields are distinct datatypes, as in the
   * source, so the projection is written once for each.
   */
  function TermFieldKeys(fs: seq<TermField>): (r: seq<(Label, Binder)>)
    ensures |r| == |fs|
  {
    seq(|fs|, i requires 0 <= i < |fs| => (fs[i].fieldLabel, fs[i].binder))
  }

  function ValueFieldKeys(fs: seq<ValueField>): (r: seq<(Label, Binder)>)
    ensures |r| == |fs|
  {
    seq(|fs|, i requires 0 <= i < |fs| => (fs[i].fieldLabel, fs[i].binder))
  }
}
