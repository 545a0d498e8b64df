/// Builders for patterns (src/pat.rs).
///
/// `IntoPat` maps a `Pat` to itself and each `PatX` record to the variant
/// `Pat.X` (a token stream to `Pat.Verbatim`): the constructors of `Pat`.
module PatBuilders {
  import opened Options
  import opened Syntax
  import opened Macros
  import opened PathBuilders

  // ---- identifier patterns ---------------------------------------------------

  /// `pat_ident(ident)`: a plain binding, without `ref`, `mut` or `@ subpat`.
  function NewPatIdent(ident: Ident): (p: PatIdent)
    ensures p.ident == ident && p.attrs == []
    ensures p.byRef.None? && p.mutability.None? && p.subpat.None?
  {
    PatIdent([], None, None, ident, None)
  }

  /// `PatIdent::by_ref(b)`: `ref ident` exactly when `b` holds; nothing else
  /// changes.
  function PatIdentByRef(p: PatIdent, b: bool): (r: PatIdent)
    ensures r.byRef.Some? <==> b
    ensures r.(byRef := p.byRef) == p
  {
    p.(byRef := MarkerIf(b))
  }

  /// `PatIdent::subpat(s)`: `ident @ s`; nothing else changes.
  function PatIdentSubpat(p: PatIdent, subpat: Pat): (r: PatIdent)
    ensures r.subpat == Some(subpat)
    ensures r.(subpat := p.subpat) == p
  {
    p.(subpat := Some(subpat))
  }

  const PatIdentAttrs: Accessor<PatIdent, seq<Attribute>> :=
    Accessor((n: PatIdent) => n.attrs, (n: PatIdent, v) => n.(attrs := v))
  const PatIdentMutability: Accessor<PatIdent, Marker> :=
    Accessor((n: PatIdent) => n.mutability, (n: PatIdent, v) => n.(mutability := v))

  /// `ref mut x @ s` may be built in any order, and `by_ref` is a plain flag.
  lemma PatIdentSettersCommute(ident: Ident, b: bool, m: bool, c: bool, subpat: Pat)
    ensures var p := NewPatIdent(ident);
      && PatIdentByRef(SetFlag(PatIdentMutability, p, m), b)
         == SetFlag(PatIdentMutability, PatIdentByRef(p, b), m)
      && PatIdentSubpat(PatIdentByRef(p, b), subpat) == PatIdentByRef(PatIdentSubpat(p, subpat), b)
      && PatIdentByRef(PatIdentByRef(p, b), c) == PatIdentByRef(p, c)
  {
  }

  // ---- compound patterns -----------------------------------------------------

  /// `pat_or(cases)`: `a | b | ..` in order, without a leading `|`.
  function NewPatOr(cases: seq<Pat>): (p: PatOr)
    ensures p.cases == cases && p.leadingVert.None? && p.attrs == []
  {
    PatOr([], None, cases)
  }

  /// `pat_paren(pat)`: `(pat)`.
  function NewPatParen(pat: Pat): (p: PatParen)
    ensures p.pat == pat && p.attrs == []
  {
    PatParen([], pat)
  }

  /// `pat_reference(pat)`: `&pat` without `mut`.
  function NewPatReference(pat: Pat): (p: PatReference)
    ensures p.pat == pat && p.mutability.None? && p.attrs == []
  {
    PatReference([], None, pat)
  }

  /// `pat_rest()`: `..` without attributes.
  function NewPatRest(): (p: PatRest)
    ensures p.attrs == []
  {
    PatRest([])
  }

  /// `pat_slice(elems)`: `[elems]` in order.
  function NewPatSlice(elems: seq<Pat>): (p: PatSlice)
    ensures p.elems == elems && p.attrs == []
  {
    PatSlice([], elems)
  }

  /// `pat_tuple(elems)`: `(elems)` in order.
  function NewPatTuple(elems: seq<Pat>): (p: PatTuple)
    ensures p.elems == elems && p.attrs == []
  {
    PatTuple([], elems)
  }

  /// `pat_tuple_struct(path, elems)`: `path(elems)` without a qualified self.
  function NewPatTupleStruct(path: PathSource, elems: seq<Pat>): (p: PatTupleStruct)
    ensures p.path == IntoPath(path) && p.elems == elems
    ensures p.qself.None? && p.attrs == []
  {
    PatTupleStruct([], None, IntoPath(path), elems)
  }

  /// `pat_type(pat, ty)`: `pat: ty`, both kept unchanged.
  function NewPatType(pat: Pat, ty: Type): (p: PatType)
    ensures p.pat == pat && p.ty == ty && p.attrs == []
  {
    PatType([], pat, ty)
  }

  /// `pat_wild()`: `_` without attributes.
  function NewPatWild(): (p: PatWild)
    ensures p.attrs == []
  {
    PatWild([])
  }

  // ---- struct patterns -------------------------------------------------------

  /// `pat_struct(path, fields)`: `path { fields }` in order, without `..` and
  /// without a qualified self.
  function NewPatStruct(path: PathSource, fields: seq<FieldPat>): (p: PatStruct)
    ensures p.path == IntoPath(path) && p.fields == fields
    ensures p.qself.None? && p.rest.None? && p.attrs == []
  {
    PatStruct([], None, IntoPath(path), fields, None)
  }

  /// `PatStruct::rest(r)`: `path { fields, .. }`; nothing else changes.
  function PatStructRest(p: PatStruct, rest: PatRest): (r: PatStruct)
    ensures r.rest == Some(rest)
    ensures r.(rest := p.rest) == p
  {
    p.(rest := Some(rest))
  }

  /// `field_pat(member, pat)`: `member pat` without the `:` between them.
  function NewFieldPat(member: Member, pat: Pat): (f: FieldPat)
    ensures f.member == member && f.pat == pat
    ensures f.colonToken.None? && f.attrs == []
  {
    FieldPat([], member, None, pat)
  }

  /// `FieldPat::colon_token(b)`: `member: pat` exactly when `b` holds; nothing
  /// else changes.
  function FieldPatColonToken(f: FieldPat, b: bool): (r: FieldPat)
    ensures r.colonToken.Some? <==> b
    ensures r.(colonToken := f.colonToken) == f
  {
    f.(colonToken := MarkerIf(b))
  }

  /// The colon is a plain flag: the last call wins, and `colon_token(false)`
  /// leaves a fresh field pattern unchanged.
  lemma FieldPatColonTokenLaws(f: FieldPat, b: bool, c: bool, member: Member, pat: Pat)
    ensures FieldPatColonToken(FieldPatColonToken(f, b), c) == FieldPatColonToken(f, c)
    ensures FieldPatColonToken(NewFieldPat(member, pat), false) == NewFieldPat(member, pat)
  {
  }

  const PatOrAttrs: Accessor<PatOr, seq<Attribute>> :=
    Accessor((n: PatOr) => n.attrs, (n: PatOr, v) => n.(attrs := v))
  const PatParenAttrs: Accessor<PatParen, seq<Attribute>> :=
    Accessor((n: PatParen) => n.attrs, (n: PatParen, v) => n.(attrs := v))
  const PatReferenceAttrs: Accessor<PatReference, seq<Attribute>> :=
    Accessor((n: PatReference) => n.attrs, (n: PatReference, v) => n.(attrs := v))
  const PatReferenceMutability: Accessor<PatReference, Marker> :=
    Accessor((n: PatReference) => n.mutability, (n: PatReference, v) => n.(mutability := v))
  const PatRestAttrs: Accessor<PatRest, seq<Attribute>> :=
    Accessor((n: PatRest) => n.attrs, (n: PatRest, v) => n.(attrs := v))
  const PatSliceAttrs: Accessor<PatSlice, seq<Attribute>> :=
    Accessor((n: PatSlice) => n.attrs, (n: PatSlice, v) => n.(attrs := v))
  const PatStructAttrs: Accessor<PatStruct, seq<Attribute>> :=
    Accessor((n: PatStruct) => n.attrs, (n: PatStruct, v) => n.(attrs := v))
  const PatStructQSelf: Accessor<PatStruct, Option<QSelf>> :=
    Accessor((n: PatStruct) => n.qself, (n: PatStruct, v) => n.(qself := v))
  const PatTupleAttrs: Accessor<PatTuple, seq<Attribute>> :=
    Accessor((n: PatTuple) => n.attrs, (n: PatTuple, v) => n.(attrs := v))
  const PatTupleStructAttrs: Accessor<PatTupleStruct, seq<Attribute>> :=
    Accessor((n: PatTupleStruct) => n.attrs, (n: PatTupleStruct, v) => n.(attrs := v))
  const PatTupleStructQSelf: Accessor<PatTupleStruct, Option<QSelf>> :=
    Accessor((n: PatTupleStruct) => n.qself, (n: PatTupleStruct, v) => n.(qself := v))
  const PatTypeAttrs: Accessor<PatType, seq<Attribute>> :=
    Accessor((n: PatType) => n.attrs, (n: PatType, v) => n.(attrs := v))
  const PatWildAttrs: Accessor<PatWild, seq<Attribute>> :=
    Accessor((n: PatWild) => n.attrs, (n: PatWild, v) => n.(attrs := v))
  const FieldPatAttrs: Accessor<FieldPat, seq<Attribute>> :=
    Accessor((n: FieldPat) => n.attrs, (n: FieldPat, v) => n.(attrs := v))

  /// Every accessor of this file reaches its own field.
  lemma PatAccessorsLawful()
    ensures Lawful(PatIdentAttrs) && Lawful(PatIdentMutability)
    ensures Lawful(PatOrAttrs) && Lawful(PatParenAttrs) && Lawful(PatReferenceAttrs)
    ensures Lawful(PatReferenceMutability) && Lawful(PatRestAttrs) && Lawful(PatSliceAttrs)
    ensures Lawful(PatStructAttrs) && Lawful(PatStructQSelf) && Lawful(PatTupleAttrs)
    ensures Lawful(PatTupleStructAttrs) && Lawful(PatTupleStructQSelf)
    ensures Lawful(PatTypeAttrs) && Lawful(PatWildAttrs) && Lawful(FieldPatAttrs)
    ensures Independent(PatStructAttrs, PatStructQSelf)
  {
  }
}
