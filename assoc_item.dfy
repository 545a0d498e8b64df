/// Builders for the items of `extern` blocks, traits and impls (src/item.rs,
/// foreign items, trait items and impl items).
///
/// `IntoForeignItem`, `IntoTraitItem` and `IntoImplItem` map a record to the
/// variant of the same name (and the enum to itself): they are the
/// constructors of `ForeignItem`, `TraitItem` and `ImplItem`.
module AssocItemBuilders {
  import opened Options
  import opened Syntax
  import opened Macros

  // ---- foreign items ---------------------------------------------------------

  /// `foreign_item_fn(sig)`: `fn sig;` inside an `extern` block.
  function NewForeignItemFn(sig: Signature): (r: ForeignItemFn)
    ensures r.sig == sig && r.attrs == [] && r.vis == Inherited
  {
    ForeignItemFn([], Inherited, sig)
  }

  /// `foreign_item_static(ident, ty)`: `static ident: ty;`, immutable.
  function NewForeignItemStatic(ident: Ident, ty: Type): (r: ForeignItemStatic)
    ensures r.ident == ident && r.ty == ty && r.mutability == Immutable
    ensures r.attrs == [] && r.vis == Inherited
  {
    ForeignItemStatic([], Inherited, Immutable, ident, ty)
  }

  /// `ForeignItemStatic::mutability(b)`: `static mut` exactly when `b` holds.
  function ForeignItemStaticMutability(s: ForeignItemStatic, b: bool): (r: ForeignItemStatic)
    ensures r.mutability.Mut? <==> b
    ensures r.(mutability := s.mutability) == s
  {
    s.(mutability := if b then Mut else Immutable)
  }

  /// `foreign_item_type(ident)`: `type ident;` without generics.
  function NewForeignItemType(ident: Ident): (r: ForeignItemType)
    ensures r.ident == ident && r.generics == NoGenerics
    ensures r.attrs == [] && r.vis == Inherited
  {
    ForeignItemType([], Inherited, ident, NoGenerics)
  }

  /// `foreign_item_macro(mac)`: a macro invocation without a trailing `;`.
  function NewForeignItemMacro(mac: Macro): (r: ForeignItemMacro)
    ensures r.mac == mac && r.attrs == [] && r.semiToken.None?
  {
    ForeignItemMacro([], mac, None)
  }

  const ForeignItemFnAttrs: Accessor<ForeignItemFn, seq<Attribute>> :=
    Accessor((n: ForeignItemFn) => n.attrs, (n: ForeignItemFn, v) => n.(attrs := v))
  const ForeignItemFnVis: Accessor<ForeignItemFn, Visibility> :=
    Accessor((n: ForeignItemFn) => n.vis, (n: ForeignItemFn, v) => n.(vis := v))
  const ForeignItemStaticAttrs: Accessor<ForeignItemStatic, seq<Attribute>> :=
    Accessor((n: ForeignItemStatic) => n.attrs, (n: ForeignItemStatic, v) => n.(attrs := v))
  const ForeignItemStaticVis: Accessor<ForeignItemStatic, Visibility> :=
    Accessor((n: ForeignItemStatic) => n.vis, (n: ForeignItemStatic, v) => n.(vis := v))
  const ForeignItemTypeAttrs: Accessor<ForeignItemType, seq<Attribute>> :=
    Accessor((n: ForeignItemType) => n.attrs, (n: ForeignItemType, v) => n.(attrs := v))
  const ForeignItemTypeVis: Accessor<ForeignItemType, Visibility> :=
    Accessor((n: ForeignItemType) => n.vis, (n: ForeignItemType, v) => n.(vis := v))
  const ForeignItemTypeGenerics: Accessor<ForeignItemType, Generics> :=
    Accessor((n: ForeignItemType) => n.generics, (n: ForeignItemType, v) => n.(generics := v))
  const ForeignItemMacroAttrs: Accessor<ForeignItemMacro, seq<Attribute>> :=
    Accessor((n: ForeignItemMacro) => n.attrs, (n: ForeignItemMacro, v) => n.(attrs := v))

  // ---- trait items -----------------------------------------------------------

  /// `trait_item_const(ident, ty)`: `const ident: ty;` without a default.
  function NewTraitItemConst(ident: Ident, ty: Type): (r: TraitItemConst)
    ensures r.ident == ident && r.ty == ty && r.default.None?
    ensures r.attrs == [] && r.generics == NoGenerics
  {
    TraitItemConst([], ident, NoGenerics, ty, None)
  }

  /// `TraitItemConst::default(e)`: `const ident: ty = e;`.
  function TraitItemConstDefault(c: TraitItemConst, expr: Expr): (r: TraitItemConst)
    ensures r.default == Some(expr)
    ensures r.(default := c.default) == c
  {
    c.(default := Some(expr))
  }

  /// `trait_item_fn(sig)`: a required method `fn sig;` without a body.
  function NewTraitItemFn(sig: Signature): (r: TraitItemFn)
    ensures r.sig == sig && r.default.None? && r.attrs == [] && r.semiToken.None?
  {
    TraitItemFn([], sig, None, None)
  }

  /// `TraitItemFn::default(block)`: a provided method with body `block`.
  function TraitItemFnDefault(f: TraitItemFn, block: Block): (r: TraitItemFn)
    ensures r.default == Some(block)
    ensures r.(default := f.default) == f
  {
    f.(default := Some(block))
  }

  /// An associated type with bounds has the `:` that introduces them.
  predicate TraitItemTypeWellFormed(t: TraitItemType) {
    t.bounds != [] ==> t.colonToken.Some?
  }

  /// `trait_item_type(ident)`: `type ident;` without bounds or default.
  function NewTraitItemType(ident: Ident): (r: TraitItemType)
    ensures r.ident == ident && r.bounds == [] && r.colonToken.None? && r.default.None?
    ensures r.attrs == [] && r.generics == NoGenerics
    ensures TraitItemTypeWellFormed(r)
  {
    TraitItemType([], ident, NoGenerics, None, [], None)
  }

  /// `TraitItemType::bounds(bs)`: `type ident: bs;`; the `:` is written even
  /// when `bs` is empty.
  function TraitItemTypeBounds(t: TraitItemType, bounds: seq<TypeParamBound>): (r: TraitItemType)
    ensures r.bounds == bounds && r.colonToken.Some?
    ensures TraitItemTypeWellFormed(r)
    ensures r.(bounds := t.bounds, colonToken := t.colonToken) == t
  {
    t.(colonToken := Some(()), bounds := bounds)
  }

  /// `TraitItemType::default(ty)`: `type ident = ty;`.
  function TraitItemTypeDefault(t: TraitItemType, ty: Type): (r: TraitItemType)
    ensures r.default == Some(ty)
    ensures r.(default := t.default) == t
  {
    t.(default := Some(ty))
  }

  /// `trait_item_macro(mac)`: a macro invocation without a trailing `;`.
  function NewTraitItemMacro(mac: Macro): (r: TraitItemMacro)
    ensures r.mac == mac && r.attrs == [] && r.semiToken.None?
  {
    TraitItemMacro([], mac, None)
  }

  const TraitItemConstAttrs: Accessor<TraitItemConst, seq<Attribute>> :=
    Accessor((n: TraitItemConst) => n.attrs, (n: TraitItemConst, v) => n.(attrs := v))
  const TraitItemConstGenerics: Accessor<TraitItemConst, Generics> :=
    Accessor((n: TraitItemConst) => n.generics, (n: TraitItemConst, v) => n.(generics := v))
  const TraitItemFnAttrs: Accessor<TraitItemFn, seq<Attribute>> :=
    Accessor((n: TraitItemFn) => n.attrs, (n: TraitItemFn, v) => n.(attrs := v))
  const TraitItemTypeAttrs: Accessor<TraitItemType, seq<Attribute>> :=
    Accessor((n: TraitItemType) => n.attrs, (n: TraitItemType, v) => n.(attrs := v))
  const TraitItemMacroAttrs: Accessor<TraitItemMacro, seq<Attribute>> :=
    Accessor((n: TraitItemMacro) => n.attrs, (n: TraitItemMacro, v) => n.(attrs := v))

  // ---- impl items ------------------------------------------------------------

  /// `impl_item_const(ident, ty, expr)`: `const ident: ty = expr;`, private
  /// and not `default`.
  function NewImplItemConst(ident: Ident, ty: Type, expr: Expr): (r: ImplItemConst)
    ensures r.ident == ident && r.ty == ty && r.expr == expr
    ensures r.attrs == [] && r.vis == Inherited && r.defaultness.None? && r.generics == NoGenerics
  {
    ImplItemConst([], Inherited, None, ident, NoGenerics, ty, expr)
  }

  /// `impl_item_fn(sig, block)`: a private, non-`default` method.
  function NewImplItemFn(sig: Signature, block: Block): (r: ImplItemFn)
    ensures r.sig == sig && r.block == block
    ensures r.attrs == [] && r.vis == Inherited && r.defaultness.None?
  {
    ImplItemFn([], Inherited, None, sig, block)
  }

  /// `impl_item_type(ident, ty)`: `type ident = ty;`, private, not `default`.
  function NewImplItemType(ident: Ident, ty: Type): (r: ImplItemType)
    ensures r.ident == ident && r.ty == ty
    ensures r.attrs == [] && r.vis == Inherited && r.defaultness.None? && r.generics == NoGenerics
  {
    ImplItemType([], Inherited, None, ident, NoGenerics, ty)
  }

  /// `impl_item_macro(mac)`: a macro invocation without a trailing `;`.
  function NewImplItemMacro(mac: Macro): (r: ImplItemMacro)
    ensures r.mac == mac && r.attrs == [] && r.semiToken.None?
  {
    ImplItemMacro([], mac, None)
  }

  const ImplItemConstAttrs: Accessor<ImplItemConst, seq<Attribute>> :=
    Accessor((n: ImplItemConst) => n.attrs, (n: ImplItemConst, v) => n.(attrs := v))
  const ImplItemConstVis: Accessor<ImplItemConst, Visibility> :=
    Accessor((n: ImplItemConst) => n.vis, (n: ImplItemConst, v) => n.(vis := v))
  const ImplItemConstDefaultness: Accessor<ImplItemConst, Marker> :=
    Accessor((n: ImplItemConst) => n.defaultness, (n: ImplItemConst, v) => n.(defaultness := v))
  const ImplItemFnAttrs: Accessor<ImplItemFn, seq<Attribute>> :=
    Accessor((n: ImplItemFn) => n.attrs, (n: ImplItemFn, v) => n.(attrs := v))
  const ImplItemFnVis: Accessor<ImplItemFn, Visibility> :=
    Accessor((n: ImplItemFn) => n.vis, (n: ImplItemFn, v) => n.(vis := v))
  const ImplItemFnDefaultness: Accessor<ImplItemFn, Marker> :=
    Accessor((n: ImplItemFn) => n.defaultness, (n: ImplItemFn, v) => n.(defaultness := v))
  const ImplItemTypeAttrs: Accessor<ImplItemType, seq<Attribute>> :=
    Accessor((n: ImplItemType) => n.attrs, (n: ImplItemType, v) => n.(attrs := v))
  const ImplItemTypeVis: Accessor<ImplItemType, Visibility> :=
    Accessor((n: ImplItemType) => n.vis, (n: ImplItemType, v) => n.(vis := v))
  const ImplItemTypeDefaultness: Accessor<ImplItemType, Marker> :=
    Accessor((n: ImplItemType) => n.defaultness, (n: ImplItemType, v) => n.(defaultness := v))
  const ImplItemTypeGenerics: Accessor<ImplItemType, Generics> :=
    Accessor((n: ImplItemType) => n.generics, (n: ImplItemType, v) => n.(generics := v))
  const ImplItemMacroAttrs: Accessor<ImplItemMacro, seq<Attribute>> :=
    Accessor((n: ImplItemMacro) => n.attrs, (n: ImplItemMacro, v) => n.(attrs := v))

  // ---- properties ------------------------------------------------------------

  lemma ForeignItemAccessorsLawful()
    ensures Lawful(ForeignItemFnAttrs) && Lawful(ForeignItemFnVis)
    ensures Lawful(ForeignItemStaticAttrs) && Lawful(ForeignItemStaticVis)
    ensures Lawful(ForeignItemTypeAttrs) && Lawful(ForeignItemTypeVis) && Lawful(ForeignItemTypeGenerics)
    ensures Lawful(ForeignItemMacroAttrs)
  {
  }

  lemma TraitItemAccessorsLawful()
    ensures Lawful(TraitItemConstAttrs) && Lawful(TraitItemConstGenerics)
    ensures Lawful(TraitItemFnAttrs) && Lawful(TraitItemTypeAttrs) && Lawful(TraitItemMacroAttrs)
  {
  }

  lemma ImplItemAccessorsLawful()
    ensures Lawful(ImplItemConstAttrs) && Lawful(ImplItemConstVis) && Lawful(ImplItemConstDefaultness)
    ensures Lawful(ImplItemFnAttrs) && Lawful(ImplItemFnVis) && Lawful(ImplItemFnDefaultness)
    ensures Lawful(ImplItemTypeAttrs) && Lawful(ImplItemTypeVis) && Lawful(ImplItemTypeDefaultness)
    ensures Lawful(ImplItemTypeGenerics) && Lawful(ImplItemMacroAttrs)
  {
  }

  /// Every trait item type built by the builders is well formed, whatever
  /// order `bounds` and `default` are called in, and the two commute.
  lemma TraitItemTypeBuildersWellFormed(ident: Ident, bounds: seq<TypeParamBound>, ty: Type, xs: seq<Attribute>)
    ensures var t := NewTraitItemType(ident);
      && TraitItemTypeWellFormed(TraitItemTypeDefault(TraitItemTypeBounds(t, bounds), ty))
      && TraitItemTypeBounds(TraitItemTypeDefault(t, ty), bounds)
         == TraitItemTypeDefault(TraitItemTypeBounds(t, bounds), ty)
    ensures forall t: TraitItemType :: TraitItemTypeWellFormed(t) ==>
      TraitItemTypeWellFormed(Replace(TraitItemTypeAttrs, t, xs)) && TraitItemTypeWellFormed(TraitItemTypeDefault(t, ty))
  {
  }

  /// The `default` modifiers of an impl item and its visibility are
  /// independent: either order gives the same item.
  lemma ImplItemModifiersCommute(f: ImplItemFn, vis: Visibility, b: bool)
    ensures SetFlag(ImplItemFnDefaultness, Replace(ImplItemFnVis, f, vis), b)
            == Replace(ImplItemFnVis, SetFlag(ImplItemFnDefaultness, f, b), vis)
    ensures SetFlag(ImplItemFnDefaultness, Replace(ImplItemFnVis, f, vis), b).sig == f.sig
  {
  }

  /// A foreign static may have its mutability set more than once; the last
  /// call wins and setting it back restores the original.
  lemma ForeignItemStaticMutabilityLaws(s: ForeignItemStatic, b: bool, c: bool)
    ensures ForeignItemStaticMutability(ForeignItemStaticMutability(s, b), c) == ForeignItemStaticMutability(s, c)
    ensures ForeignItemStaticMutability(s, s.mutability.Mut?) == s
  {
  }
}
