/// Builders for paths and generic arguments (src/path.rs).
module PathBuilders {
  import opened Options
  import opened Syntax
  import opened Macros

  // ---- IntoPath --------------------------------------------------------------

  /// What `impl IntoPath` accepts: a path, an identifier, or a string slice.
  datatype PathSource = FromPath(path: Path) | FromIdent(ident: Ident) | FromStr(text: string)

  /// syn's `Path::from(ident)`: one segment, no arguments, no leading `::`.
  function PathFromIdent(ident: Ident): (p: Path)
    ensures p.leadingColon.None? && |p.segments| == 1
    ensures p.segments[0].ident == ident && p.segments[0].arguments.NoArguments?
  {
    Path.Path(None, [PathSegment(ident, NoArguments)])
  }

  /// syn's `Path::get_ident`: the identifier of a path that is nothing but one
  /// bare identifier.
  function GetIdent(p: Path): (r: Option<Ident>)
    ensures r.Some? ==> p == PathFromIdent(r.value)
    ensures r.None? ==> forall i :: p != PathFromIdent(i)
  {
    if p.leadingColon.None? && |p.segments| == 1 && p.segments[0].arguments.NoArguments?
    then Some(p.segments[0].ident)
    else None
  }

  /// `into_path`: a path is kept, an identifier or a string becomes the
  /// one-segment path whose `get_ident` gives it back.
  function IntoPath(s: PathSource): (p: Path)
    ensures s.FromPath? ==> p == s.path
    ensures s.FromIdent? ==> GetIdent(p) == Some(s.ident)
    ensures s.FromStr? ==> GetIdent(p) == Some(Ident.Ident(s.text))
  {
    match s
    case FromPath(path) => path
    case FromIdent(ident) => PathFromIdent(ident)
    case FromStr(text) => PathFromIdent(Ident.Ident(text))
  }

  // ---- Path ------------------------------------------------------------------

  /// `path(segments)`: the segments in order, without a leading `::`.
  function NewPath(segments: seq<PathSegment>): (p: Path)
    ensures p.leadingColon.None? && p.segments == segments
    ensures GetIdent(p).Some? <==> |segments| == 1 && segments[0].arguments.NoArguments?
  {
    Path.Path(None, segments)
  }

  /// `Path::leading_colon(b)`: the leading `::` is present exactly when `b`
  /// holds; a path that has it is never a bare identifier.
  function PathLeadingColon(p: Path, b: bool): (r: Path)
    ensures r.leadingColon.Some? <==> b
    ensures r.segments == p.segments
    ensures b ==> GetIdent(r).None?
  {
    p.(leadingColon := MarkerIf(b))
  }

  /// `path_segment(ident)`: the segment starts without generic arguments.
  function NewPathSegment(ident: Ident): (s: PathSegment)
    ensures s.ident == ident && s.arguments == NoArguments
  {
    PathSegment(ident, NoArguments)
  }

  /// `PathSegment::arguments(a)`: replaces the arguments and keeps the name.
  function PathSegmentArguments(s: PathSegment, arguments: PathArguments): (r: PathSegment)
    ensures r.arguments == arguments && r.ident == s.ident
  {
    s.(arguments := arguments)
  }

  // ---- generic arguments -----------------------------------------------------

  /// `angle_bracketed_generic_arguments(args)`: `<args>` in order, no
  /// turbofish `::`.
  function NewAngleBracketed(args: seq<GenericArgument>): (r: AngleBracketedGenericArguments)
    ensures r.colon2Token.None? && r.args == args
  {
    AngleBracketedGenericArguments(None, args)
  }

  /// `AngleBracketedGenericArguments::colon2_token(b)`.
  function AngleBracketedColon2Token(a: AngleBracketedGenericArguments, b: bool): (r: AngleBracketedGenericArguments)
    ensures (r.colon2Token.Some? <==> b) && r.args == a.args
  {
    a.(colon2Token := MarkerIf(b))
  }

  // The `generics_builder!` of src/path.rs gives an associated item the
  // generic arguments `g` as `Some(g)`: `Macros.SetSome` on the accessors below.

  /// `assoc_type(ident, ty)`: `ident = ty` without generic arguments.
  function NewAssocType(ident: Ident, ty: Type): (r: AssocType)
    ensures r.ident == ident && r.ty == ty && r.generics.None?
  {
    AssocType.AssocType(ident, None, ty)
  }

  /// `assoc_const(ident, value)`: `ident = value` without generic arguments.
  function NewAssocConst(ident: Ident, value: Expr): (r: AssocConst)
    ensures r.ident == ident && r.value == value && r.generics.None?
  {
    AssocConst.AssocConst(ident, None, value)
  }

  /// `constraint(ident, bounds)`: `ident: bounds` with the bounds in order.
  function NewConstraint(ident: Ident, bounds: seq<TypeParamBound>): (r: Constraint)
    ensures r.ident == ident && r.bounds == bounds && r.generics.None?
  {
    Constraint.Constraint(ident, None, bounds)
  }

  const AssocTypeGenerics: Accessor<AssocType, Option<AngleBracketedGenericArguments>> :=
    Accessor((n: AssocType) => n.generics, (n: AssocType, v) => n.(generics := v))
  const AssocConstGenerics: Accessor<AssocConst, Option<AngleBracketedGenericArguments>> :=
    Accessor((n: AssocConst) => n.generics, (n: AssocConst, v) => n.(generics := v))
  const ConstraintGenerics: Accessor<Constraint, Option<AngleBracketedGenericArguments>> :=
    Accessor((n: Constraint) => n.generics, (n: Constraint, v) => n.(generics := v))

  /// `parenthesized_generic_arguments(inputs)`: `(inputs)` in order with the
  /// default (absent) return type.
  function NewParenthesized(inputs: seq<Type>): (r: ParenthesizedGenericArguments)
    ensures r.inputs == inputs && r.output == ReturnType.Default
  {
    ParenthesizedGenericArguments(inputs, ReturnType.Default)
  }

  const ParenthesizedOutput: Accessor<ParenthesizedGenericArguments, ReturnType> :=
    Accessor((n: ParenthesizedGenericArguments) => n.output,
             (n: ParenthesizedGenericArguments, v) => n.(output := v))

  // ---- QSelf -----------------------------------------------------------------

  /// `q_self(ty, position)`: `<ty>` without `as`.
  function NewQSelf(ty: Type, position: nat): (q: QSelf)
    ensures q.ty == ty && q.position == position && q.asToken.None?
  {
    QSelf(ty, position, None)
  }

  /// `QSelf::as_token(b)`.
  function QSelfAsToken(q: QSelf, b: bool): (r: QSelf)
    ensures (r.asToken.Some? <==> b) && r.ty == q.ty && r.position == q.position
  {
    q.(asToken := MarkerIf(b))
  }

  /// Every accessor of this file reaches its own field.
  lemma PathAccessorsLawful()
    ensures Lawful(AssocTypeGenerics) && Lawful(AssocConstGenerics) && Lawful(ConstraintGenerics)
    ensures Lawful(ParenthesizedOutput)
  {
  }

  /// Round trip: the path built from an identifier or a string gives that
  /// identifier back, and a path of two or more segments has none.
  lemma {:induction false} IntoPathRoundTrip(s: PathSource, p: Path)
    ensures !s.FromPath? ==> IntoPath(s) == PathFromIdent(GetIdent(IntoPath(s)).value)
    ensures |p.segments| != 1 ==> GetIdent(p).None?
  {
  }
}
