/// Builders for types (src/ty.rs).
///
/// `IntoType` maps a `Type` to itself and each `TypeX` record to the variant
/// `Type.X` (a token stream to `Type.Verbatim`): the constructors of `Type`.
/// `type_infer()` and `type_never()` return the only value of `TypeInfer` and
/// `TypeNever`.
module TyBuilders {
  import opened Options
  import opened Syntax
  import opened Macros
  import opened PathBuilders

  // ---- element types ---------------------------------------------------------

  /// `type_array(elem, len)`: `[elem; len]`.
  function NewTypeArray(elem: Type, len: Expr): (t: TypeArray)
    ensures t.elem == elem && t.len == len
  {
    TypeArray(elem, len)
  }

  /// `type_group(elem)`: an invisible group around `elem`.
  function NewTypeGroup(elem: Type): (t: TypeGroup)
    ensures t.elem == elem
  {
    TypeGroup(elem)
  }

  /// `type_paren(elem)`: `(elem)`.
  function NewTypeParen(elem: Type): (t: TypeParen)
    ensures t.elem == elem
  {
    TypeParen(elem)
  }

  /// `type_slice(elem)`: `[elem]`.
  function NewTypeSlice(elem: Type): (t: TypeSlice)
    ensures t.elem == elem
  {
    TypeSlice(elem)
  }

  /// `type_macro(mac)`: a macro in type position.
  function NewTypeMacro(mac: Macro): (t: TypeMacro)
    ensures t.mac == mac
  {
    TypeMacro(mac)
  }

  /// `type_tuple(elems)`: `(elems)` in order.
  function NewTypeTuple(elems: seq<Type>): (t: TypeTuple)
    ensures t.elems == elems
  {
    TypeTuple(elems)
  }

  /// `type_impl_trait(bounds)`: `impl bounds` in order.
  function NewTypeImplTrait(bounds: seq<TypeParamBound>): (t: TypeImplTrait)
    ensures t.bounds == bounds
  {
    TypeImplTrait(bounds)
  }

  /// `type_trait_object(bounds)`: the bounds in order, without `dyn` (the
  /// token's default is its absence).
  function NewTypeTraitObject(bounds: seq<TypeParamBound>): (t: TypeTraitObject)
    ensures t.bounds == bounds && t.dynToken.None?
  {
    TypeTraitObject(None, bounds)
  }

  // ---- paths -----------------------------------------------------------------

  /// `type_path(path)`: a path type without a qualified-self prefix.
  function NewTypePath(path: PathSource): (t: TypePath)
    ensures t.path == IntoPath(path) && t.qself.None?
  {
    TypePath(None, IntoPath(path))
  }

  const TypePathQSelf: Accessor<TypePath, Option<QSelf>> :=
    Accessor((n: TypePath) => n.qself, (n: TypePath, v) => n.(qself := v))

  // ---- raw-address types: `*const T` and `*mut T` -------------------------

  /// A raw-address type is either `*const` or `*mut`, never both and never neither.
  predicate TypePtrWellFormed(t: TypePtr) {
    t.constToken.Some? != t.mutability.Some?
  }

  /// `type_ptr_const(elem)`: `*const elem`.
  function TypePtrConst(elem: Type): (t: TypePtr)
    ensures t.elem == elem && t.constToken.Some? && t.mutability.None?
    ensures TypePtrWellFormed(t)
  {
    TypePtr(Some(()), None, elem)
  }

  /// `type_ptr_mut(elem)`: `*mut elem`.
  function TypePtrMut(elem: Type): (t: TypePtr)
    ensures t.elem == elem && t.constToken.None? && t.mutability.Some?
    ensures TypePtrWellFormed(t)
  {
    TypePtr(None, Some(()), elem)
  }

  /// Every well-formed `*const`/`*mut` type is built by exactly one of the two
  /// constructors.
  lemma TypePtrBuiltByOne(t: TypePtr)
    requires TypePtrWellFormed(t)
    ensures (t == TypePtrConst(t.elem)) != (t == TypePtrMut(t.elem))
  {
    MarkerIsPresence(t.constToken);
    MarkerIsPresence(t.mutability);
  }

  // ---- references ------------------------------------------------------------

  /// `type_reference(elem)`: `&elem`, without a lifetime or `mut`.
  function NewTypeReference(elem: Type): (t: TypeReference)
    ensures t.elem == elem && t.lifetime.None? && t.mutability.None?
  {
    TypeReference(None, None, elem)
  }

  /// `TypeReference::lifetime(l)`: `&'l elem`; nothing else changes.
  function TypeReferenceLifetime(t: TypeReference, lifetime: Lifetime): (r: TypeReference)
    ensures r.lifetime == Some(lifetime)
    ensures r.(lifetime := t.lifetime) == t
  {
    t.(lifetime := Some(lifetime))
  }

  const TypeReferenceMutability: Accessor<TypeReference, Marker> :=
    Accessor((n: TypeReference) => n.mutability, (n: TypeReference, v) => n.(mutability := v))

  /// `&'l mut elem` may be built in either order.
  lemma TypeReferenceSettersCommute(t: TypeReference, lifetime: Lifetime, b: bool)
    ensures TypeReferenceLifetime(SetFlag(TypeReferenceMutability, t, b), lifetime)
            == SetFlag(TypeReferenceMutability, TypeReferenceLifetime(t, lifetime), b)
  {
  }

  // ---- bare function types -----------------------------------------------------

  /// `type_bare_fn(inputs)`: `fn(inputs)` in order, with no `for<..>`,
  /// `unsafe`, `extern`, `...` or return type.
  function NewTypeBareFn(inputs: seq<BareFnArg>): (t: TypeBareFn)
    ensures t.inputs == inputs
    ensures t.lifetimes.None? && t.unsafety.None? && t.abi.None?
    ensures t.variadic.None? && t.output == ReturnType.Default
  {
    TypeBareFn(None, None, None, inputs, None, ReturnType.Default)
  }

  /// `TypeBareFn::lifetimes(l)`: `for<..> fn(..)`; nothing else changes.
  function TypeBareFnLifetimes(t: TypeBareFn, lifetimes: BoundLifetimes): (r: TypeBareFn)
    ensures r.lifetimes == Some(lifetimes)
    ensures r.(lifetimes := t.lifetimes) == t
  {
    t.(lifetimes := Some(lifetimes))
  }

  /// `TypeBareFn::unsafety(b)`: `unsafe fn(..)` exactly when `b` holds;
  /// nothing else changes.
  function TypeBareFnUnsafety(t: TypeBareFn, b: bool): (r: TypeBareFn)
    ensures r.unsafety.Some? <==> b
    ensures r.(unsafety := t.unsafety) == t
  {
    t.(unsafety := MarkerIf(b))
  }

  /// `TypeBareFn::abi(a)`: `extern "a" fn(..)`; nothing else changes.
  function TypeBareFnAbi(t: TypeBareFn, abi: Abi): (r: TypeBareFn)
    ensures r.abi == Some(abi)
    ensures r.(abi := t.abi) == t
  {
    t.(abi := Some(abi))
  }

  /// `TypeBareFn::variadic(v)`: `fn(inputs, ...)`; nothing else changes.
  function TypeBareFnVariadic(t: TypeBareFn, variadic: BareVariadic): (r: TypeBareFn)
    ensures r.variadic == Some(variadic)
    ensures r.(variadic := t.variadic) == t
  {
    t.(variadic := Some(variadic))
  }

  const TypeBareFnOutput: Accessor<TypeBareFn, ReturnType> :=
    Accessor((n: TypeBareFn) => n.output, (n: TypeBareFn, v) => n.(output := v))

  /// The setters of a bare function type write distinct fields: applied in
  /// any order to `type_bare_fn(inputs)` they give the same type, and the inputs
  /// survive them all.
  lemma TypeBareFnSettersCommute(inputs: seq<BareFnArg>, abi: Abi, b: bool, ty: Type)
    ensures var t := NewTypeBareFn(inputs);
      && TypeBareFnAbi(TypeBareFnUnsafety(t, b), abi) == TypeBareFnUnsafety(TypeBareFnAbi(t, abi), b)
      && SetOutput(TypeBareFnOutput, TypeBareFnAbi(t, abi), ty)
         == TypeBareFnAbi(SetOutput(TypeBareFnOutput, t, ty), abi)
      && SetOutput(TypeBareFnOutput, TypeBareFnUnsafety(TypeBareFnAbi(t, abi), b), ty).inputs == inputs
  {
  }

  // ---- ABI, arguments, variadics ---------------------------------------------

  /// `abi(name)`: `extern "name"`; the name is always present.
  function NewAbi(name: LitStr): (a: Abi)
    ensures a.name == Some(name)
  {
    Abi(Some(name))
  }

  /// `bare_fn_arg(ty)`: an unnamed argument of type `ty`.
  function NewBareFnArg(ty: Type): (a: BareFnArg)
    ensures a.ty == ty && a.name.None? && a.attrs == []
  {
    BareFnArg([], None, ty)
  }

  /// `BareFnArg::name(n)`: `n: ty`; nothing else changes.
  function BareFnArgName(a: BareFnArg, name: Ident): (r: BareFnArg)
    ensures r.name == Some(name)
    ensures r.(name := a.name) == a
  {
    a.(name := Some(name))
  }

  const BareFnArgAttrs: Accessor<BareFnArg, seq<Attribute>> :=
    Accessor((n: BareFnArg) => n.attrs, (n: BareFnArg, v) => n.(attrs := v))

  /// `bare_variadic()`: an unnamed `...` without attributes or trailing comma.
  function NewBareVariadic(): (v: BareVariadic)
    ensures v.attrs == [] && v.name.None? && v.comma.None?
  {
    BareVariadic([], None, None)
  }

  /// `BareVariadic::name(n)`: `n: ...`; nothing else changes.
  function BareVariadicName(v: BareVariadic, name: Ident): (r: BareVariadic)
    ensures r.name == Some(name)
    ensures r.(name := v.name) == v
  {
    v.(name := Some(name))
  }

  const BareVariadicAttrs: Accessor<BareVariadic, seq<Attribute>> :=
    Accessor((n: BareVariadic) => n.attrs, (n: BareVariadic, v) => n.(attrs := v))

  /// Every accessor of this file reaches its own field.
  lemma TyAccessorsLawful()
    ensures Lawful(TypePathQSelf) && Lawful(TypeReferenceMutability) && Lawful(TypeBareFnOutput)
    ensures Lawful(BareFnArgAttrs) && Lawful(BareVariadicAttrs)
  {
  }
}
