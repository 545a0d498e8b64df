/// Generic parameters, bounds and where clauses (src/generics.rs).
///
/// The conversions of this file are constructors: `IntoGenericParam` maps a
/// `GenericParam` to itself and `LifetimeParam`, `TypeParam`, `ConstParam` to
/// `GenericParam.Lifetime`, `.Type`, `.Const`; `IntoTypeParamBound` maps a bound
/// to itself, a `Lifetime` to `TypeParamBound.Lifetime`, a token stream to
/// `Verbatim` and a `TraitBound` to `Trait`; `IntoWherePredicate` maps a
/// predicate to itself and `PredicateLifetime`, `PredicateType` to
/// `WherePredicate.Lifetime`, `.Type`.
module GenericsBuilders {
  import opened Options
  import opened Syntax
  import opened Macros
  import opened PathBuilders

  // ---- Generics --------------------------------------------------------------

  /// A parameter list is written between `<` and `>`.
  predicate GenericsWellFormed(g: Generics) {
    g.params != [] ==> g.ltToken.Some? && g.gtToken.Some?
  }

  /// `generics(params)`: `<params>` in order, without a where clause.
  function NewGenerics(params: seq<GenericParam>): (g: Generics)
    ensures g.params == params && g.whereClause.None?
    ensures g.ltToken.Some? && g.gtToken.Some?
    ensures GenericsWellFormed(g)
  {
    Generics(Some(()), params, Some(()), None)
  }

  /// `Generics::where_clause(w)`: adds `where w`; nothing else changes.
  function GenericsWhereClause(g: Generics, w: WhereClause): (r: Generics)
    ensures r.whereClause == Some(w)
    ensures r.(whereClause := g.whereClause) == g
    ensures GenericsWellFormed(r) <==> GenericsWellFormed(g)
  {
    g.(whereClause := Some(w))
  }

  // ---- lifetime parameters ---------------------------------------------------

  /// A parameter with bounds has the `:` that introduces them.
  predicate LifetimeParamWellFormed(p: LifetimeParam) {
    p.bounds != [] ==> p.colonToken.Some?
  }

  /// `lifetime_param(l)`: `'l` without attributes or bounds.
  function NewLifetimeParam(lifetime: Lifetime): (p: LifetimeParam)
    ensures p.lifetime == lifetime && p.attrs == []
    ensures p.colonToken.None? && p.bounds == []
    ensures LifetimeParamWellFormed(p)
  {
    LifetimeParam([], lifetime, None, [])
  }

  /// `LifetimeParam::bounds(bs)`: `'l: bs`, writing the `:` with the bounds.
  function LifetimeParamBounds(p: LifetimeParam, bounds: seq<Lifetime>): (r: LifetimeParam)
    ensures r.bounds == bounds && r.colonToken.Some?
    ensures r.(colonToken := p.colonToken, bounds := p.bounds) == p
    ensures LifetimeParamWellFormed(r)
  {
    p.(colonToken := Some(()), bounds := bounds)
  }

  const LifetimeParamAttrs: Accessor<LifetimeParam, seq<Attribute>> :=
    Accessor((n: LifetimeParam) => n.attrs, (n: LifetimeParam, v) => n.(attrs := v))

  // ---- type parameters -------------------------------------------------------

  /// Bounds come with their `:`, and a default with its `=`.
  predicate TypeParamWellFormed(p: TypeParam) {
    && (p.bounds != [] ==> p.colonToken.Some?)
    && (p.default.Some? <==> p.eqToken.Some?)
  }

  /// `type_param(ident)`: `T` without attributes, bounds or default.
  function NewTypeParam(ident: Ident): (p: TypeParam)
    ensures p.ident == ident && p.attrs == []
    ensures p.colonToken.None? && p.bounds == []
    ensures p.eqToken.None? && p.default.None?
    ensures TypeParamWellFormed(p)
  {
    TypeParam([], ident, None, [], None, None)
  }

  /// `TypeParam::bounds(bs)`: `T: bs`, writing the `:` with the bounds.
  function TypeParamBounds(p: TypeParam, bounds: seq<TypeParamBound>): (r: TypeParam)
    ensures r.bounds == bounds && r.colonToken.Some?
    ensures r.(colonToken := p.colonToken, bounds := p.bounds) == p
    ensures TypeParamWellFormed(p) ==> TypeParamWellFormed(r)
  {
    p.(colonToken := Some(()), bounds := bounds)
  }

  /// `TypeParam::default(t)`: `T = t`, writing the `=` with the default.
  function TypeParamDefault(p: TypeParam, default: Type): (r: TypeParam)
    ensures r.default == Some(default) && r.eqToken.Some?
    ensures r.(eqToken := p.eqToken, default := p.default) == p
    ensures TypeParamWellFormed(p) ==> TypeParamWellFormed(r)
  {
    p.(eqToken := Some(()), default := Some(default))
  }

  /// Bounds and default touch different fields, so they may be given in either
  /// order, and a parameter built from `type_param` stays well formed.
  lemma TypeParamSettersCommute(ident: Ident, bounds: seq<TypeParamBound>, default: Type)
    ensures var p := NewTypeParam(ident);
      && TypeParamDefault(TypeParamBounds(p, bounds), default)
         == TypeParamBounds(TypeParamDefault(p, default), bounds)
      && TypeParamWellFormed(TypeParamDefault(TypeParamBounds(p, bounds), default))
  {
  }

  const TypeParamAttrs: Accessor<TypeParam, seq<Attribute>> :=
    Accessor((n: TypeParam) => n.attrs, (n: TypeParam, v) => n.(attrs := v))

  // ---- const parameters ------------------------------------------------------

  /// A default comes with its `=`.
  predicate ConstParamWellFormed(p: ConstParam) {
    p.default.Some? <==> p.eqToken.Some?
  }

  /// `const_param(ident, ty)`: `const N: ty` without a default.
  function NewConstParam(ident: Ident, ty: Type): (p: ConstParam)
    ensures p.ident == ident && p.ty == ty && p.attrs == []
    ensures p.eqToken.None? && p.default.None?
    ensures ConstParamWellFormed(p)
  {
    ConstParam([], ident, ty, None, None)
  }

  /// `ConstParam::default(e)`: `const N: ty = e`, writing the `=` with it.
  function ConstParamDefault(p: ConstParam, default: Expr): (r: ConstParam)
    ensures r.default == Some(default) && r.eqToken.Some?
    ensures r.(eqToken := p.eqToken, default := p.default) == p
    ensures ConstParamWellFormed(r)
  {
    p.(eqToken := Some(()), default := Some(default))
  }

  const ConstParamAttrs: Accessor<ConstParam, seq<Attribute>> :=
    Accessor((n: ConstParam) => n.attrs, (n: ConstParam, v) => n.(attrs := v))

  /// Every accessor of this file reaches its own field, and attributes never
  /// disturb well-formedness.
  lemma GenericsAccessorsLawful()
    ensures Lawful(LifetimeParamAttrs) && Lawful(TypeParamAttrs) && Lawful(ConstParamAttrs)
    ensures forall p: TypeParam, xs :: TypeParamWellFormed(Replace(TypeParamAttrs, p, xs)) == TypeParamWellFormed(p)
    ensures forall p: ConstParam, xs :: ConstParamWellFormed(Replace(ConstParamAttrs, p, xs)) == ConstParamWellFormed(p)
  {
  }

  // ---- bounds ----------------------------------------------------------------

  /// `bound_lifetimes(ls)`: `for<ls>` in order.
  function NewBoundLifetimes(lifetimes: seq<GenericParam>): (b: BoundLifetimes)
    ensures b.lifetimes == lifetimes
  {
    BoundLifetimes(lifetimes)
  }

  /// `trait_bound(path)`: `path` without parentheses, `?` or `for<..>`.
  function NewTraitBound(path: PathSource): (b: TraitBound)
    ensures b.path == IntoPath(path)
    ensures b.parenToken.None? && b.modifier == NoModifier && b.lifetimes.None?
  {
    TraitBound(None, NoModifier, None, IntoPath(path))
  }

  /// `TraitBound::lifetimes(l)`: `for<..> path`; nothing else changes.
  function TraitBoundLifetimes(b: TraitBound, lifetimes: BoundLifetimes): (r: TraitBound)
    ensures r.lifetimes == Some(lifetimes)
    ensures r.(lifetimes := b.lifetimes) == b
  {
    b.(lifetimes := Some(lifetimes))
  }

  /// `TraitBound::modifier(maybe)`: `?path` exactly when `maybe` holds;
  /// nothing else changes.
  function TraitBoundMaybe(b: TraitBound, maybe: bool): (r: TraitBound)
    ensures r.modifier.Maybe? <==> maybe
    ensures r.(modifier := b.modifier) == b
  {
    b.(modifier := if maybe then Maybe else NoModifier)
  }

  /// The modifier is a plain flag: the last call wins and `modifier(false)`
  /// leaves a fresh bound unchanged.
  lemma TraitBoundMaybeLaws(b: TraitBound, x: bool, y: bool, path: PathSource)
    ensures TraitBoundMaybe(TraitBoundMaybe(b, x), y) == TraitBoundMaybe(b, y)
    ensures TraitBoundMaybe(NewTraitBound(path), false) == NewTraitBound(path)
  {
  }

  // ---- where clauses ---------------------------------------------------------

  /// `where_clause(predicates)`: `where predicates` in order.
  function NewWhereClause(predicates: seq<WherePredicate>): (w: WhereClause)
    ensures w.predicates == predicates
  {
    WhereClause(predicates)
  }

  /// `predicate_lifetime(l, bounds)`: `'l: bounds`.
  function NewPredicateLifetime(lifetime: Lifetime, bounds: seq<Lifetime>): (p: PredicateLifetime)
    ensures p.lifetime == lifetime && p.bounds == bounds
  {
    PredicateLifetime(lifetime, bounds)
  }

  /// `predicate_type(ty, bounds)`: `ty: bounds` without `for<..>`.
  function NewPredicateType(boundedTy: Type, bounds: seq<TypeParamBound>): (p: PredicateType)
    ensures p.boundedTy == boundedTy && p.bounds == bounds && p.lifetimes.None?
  {
    PredicateType(None, boundedTy, bounds)
  }

  /// `PredicateType::lifetimes(l)`: `for<..> ty: bounds`; nothing else changes.
  function PredicateTypeLifetimes(p: PredicateType, lifetimes: BoundLifetimes): (r: PredicateType)
    ensures r.lifetimes == Some(lifetimes)
    ensures r.(lifetimes := p.lifetimes) == p
  {
    p.(lifetimes := Some(lifetimes))
  }
}
