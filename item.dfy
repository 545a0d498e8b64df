/// Builders for items and `use` trees (src/item.rs, first half).
///
/// `IntoItem` maps an `Item` to itself and each `ItemXxx` record (and a raw
/// token stream) to the `Item` variant of the same name, and `IntoUseTree` does
/// the same for `UseTree`: these conversions are the constructors of `Item` and
/// `UseTree`.  The `attrs_builder!`, `vis_builder!`, `generics_builder!`,
/// `unsafety_builder!` and `defaultness_builder!` lines of each record are the
/// accessor constants next to its builder, used with `Macros.Push`,
/// `Macros.Replace` and `Macros.SetFlag`.
module ItemBuilders {
  import opened Options
  import opened Syntax
  import opened Macros
  import opened PathBuilders

  // ---- ItemConst -------------------------------------------------------------

  /// `item_const(ident, ty, expr)`: `const ident: ty = expr;`, private, without
  /// attributes or generics.
  function NewItemConst(ident: Ident, ty: Type, expr: Expr): (r: ItemConst)
    ensures r.ident == ident && r.ty == ty && r.expr == expr
    ensures r.attrs == [] && r.vis == Inherited && r.generics == NoGenerics
  {
    ItemConst([], Inherited, ident, NoGenerics, ty, expr)
  }

  const ItemConstAttrs: Accessor<ItemConst, seq<Attribute>> :=
    Accessor((n: ItemConst) => n.attrs, (n: ItemConst, v) => n.(attrs := v))
  const ItemConstVis: Accessor<ItemConst, Visibility> :=
    Accessor((n: ItemConst) => n.vis, (n: ItemConst, v) => n.(vis := v))
  const ItemConstGenerics: Accessor<ItemConst, Generics> :=
    Accessor((n: ItemConst) => n.generics, (n: ItemConst, v) => n.(generics := v))

  // ---- ItemEnum --------------------------------------------------------------

  /// `item_enum(ident)`: unlike every other item builder, the enum starts out
  /// `pub`; it has no attributes, generics or variants.
  function NewItemEnum(ident: Ident): (r: ItemEnum)
    ensures r.ident == ident && r.vis == Public
    ensures r.attrs == [] && r.generics == NoGenerics && r.variants == []
  {
    ItemEnum([], Public, ident, NoGenerics, [])
  }

  const ItemEnumVariants: Accessor<ItemEnum, seq<Variant>> :=
    Accessor((n: ItemEnum) => n.variants, (n: ItemEnum, v) => n.(variants := v))

  /// `ItemEnum::variant(v)`: appends one variant; nothing else changes.
  function ItemEnumVariant(e: ItemEnum, v: Variant): (r: ItemEnum)
    ensures r.variants == e.variants + [v]
    ensures r.(variants := e.variants) == e
  {
    Push(ItemEnumVariants, e, v)
  }

  /// `ItemEnum::variants(vs)`: replaces the variants by `vs` in order.
  function ItemEnumSetVariants(e: ItemEnum, vs: seq<Variant>): (r: ItemEnum)
    ensures r.variants == vs
    ensures r.(variants := e.variants) == e
  {
    Replace(ItemEnumVariants, e, vs)
  }

  const ItemEnumAttrs: Accessor<ItemEnum, seq<Attribute>> :=
    Accessor((n: ItemEnum) => n.attrs, (n: ItemEnum, v) => n.(attrs := v))
  const ItemEnumVis: Accessor<ItemEnum, Visibility> :=
    Accessor((n: ItemEnum) => n.vis, (n: ItemEnum, v) => n.(vis := v))
  const ItemEnumGenerics: Accessor<ItemEnum, Generics> :=
    Accessor((n: ItemEnum) => n.generics, (n: ItemEnum, v) => n.(generics := v))

  // ---- ItemExternCrate -------------------------------------------------------

  /// `item_extern_crate(ident)`: `extern crate ident;` without a rename.
  function NewItemExternCrate(ident: Ident): (r: ItemExternCrate)
    ensures r.ident == ident && r.rename.None?
    ensures r.attrs == [] && r.vis == Inherited
  {
    ItemExternCrate([], Inherited, ident, None)
  }

  /// `ItemExternCrate::rename(i)`: `extern crate ident as i;`; the crate name
  /// is kept.
  function ItemExternCrateRename(c: ItemExternCrate, rename: Ident): (r: ItemExternCrate)
    ensures r.rename == Some(rename)
    ensures r.(rename := c.rename) == c
  {
    c.(rename := Some(rename))
  }

  const ItemExternCrateAttrs: Accessor<ItemExternCrate, seq<Attribute>> :=
    Accessor((n: ItemExternCrate) => n.attrs, (n: ItemExternCrate, v) => n.(attrs := v))
  const ItemExternCrateVis: Accessor<ItemExternCrate, Visibility> :=
    Accessor((n: ItemExternCrate) => n.vis, (n: ItemExternCrate, v) => n.(vis := v))

  // ---- ItemFn ----------------------------------------------------------------

  /// `item_fn(sig, block)`: a private function without attributes.
  function NewItemFn(sig: Signature, block: Block): (r: ItemFn)
    ensures r.sig == sig && r.block == block
    ensures r.attrs == [] && r.vis == Inherited
  {
    ItemFn([], Inherited, sig, block)
  }

  const ItemFnAttrs: Accessor<ItemFn, seq<Attribute>> :=
    Accessor((n: ItemFn) => n.attrs, (n: ItemFn, v) => n.(attrs := v))
  const ItemFnVis: Accessor<ItemFn, Visibility> :=
    Accessor((n: ItemFn) => n.vis, (n: ItemFn, v) => n.(vis := v))

  // ---- ItemForeignMod --------------------------------------------------------

  /// `item_foreign_mod(abi)`: an empty, safe `extern "abi" { }` block.
  function NewItemForeignMod(abi: Abi): (r: ItemForeignMod)
    ensures r.abi == abi && r.items == []
    ensures r.attrs == [] && r.unsafety.None?
  {
    ItemForeignMod([], None, abi, [])
  }

  const ItemForeignModItems: Accessor<ItemForeignMod, seq<ForeignItem>> :=
    Accessor((n: ItemForeignMod) => n.items, (n: ItemForeignMod, v) => n.(items := v))

  /// `ItemForeignMod::item(i)`: appends one foreign item.
  function ItemForeignModItem(m: ItemForeignMod, item: ForeignItem): (r: ItemForeignMod)
    ensures r.items == m.items + [item]
    ensures r.(items := m.items) == m
  {
    Push(ItemForeignModItems, m, item)
  }

  /// `ItemForeignMod::items(is)`: replaces the foreign items.
  function ItemForeignModSetItems(m: ItemForeignMod, items: seq<ForeignItem>): (r: ItemForeignMod)
    ensures r.items == items
    ensures r.(items := m.items) == m
  {
    Replace(ItemForeignModItems, m, items)
  }

  const ItemForeignModAttrs: Accessor<ItemForeignMod, seq<Attribute>> :=
    Accessor((n: ItemForeignMod) => n.attrs, (n: ItemForeignMod, v) => n.(attrs := v))
  const ItemForeignModUnsafety: Accessor<ItemForeignMod, Marker> :=
    Accessor((n: ItemForeignMod) => n.unsafety, (n: ItemForeignMod, v) => n.(unsafety := v))

  // ---- ItemImpl --------------------------------------------------------------

  /// `item_impl(self_ty)`: an inherent `impl self_ty { }`, neither `default`
  /// nor `unsafe`, without generics or items.
  function NewItemImpl(selfTy: Type): (r: ItemImpl)
    ensures r.selfTy == selfTy && r.ofTrait.None? && r.items == []
    ensures r.attrs == [] && r.defaultness.None? && r.unsafety.None? && r.generics == NoGenerics
  {
    ItemImpl([], None, None, NoGenerics, None, selfTy, [])
  }

  /// `ItemImpl::trait_(bang, path)`: `impl !path for self_ty` when `bang`
  /// holds, `impl path for self_ty` otherwise; the self type and the items are
  /// kept.
  function ItemImplTrait(i: ItemImpl, bang: bool, path: PathSource): (r: ItemImpl)
    ensures r.ofTrait.Some? && r.ofTrait.value.1 == IntoPath(path)
    ensures r.ofTrait.value.0.Some? <==> bang
    ensures r.(ofTrait := i.ofTrait) == i
  {
    i.(ofTrait := Some((MarkerIf(bang), IntoPath(path))))
  }

  const ItemImplItems: Accessor<ItemImpl, seq<ImplItem>> :=
    Accessor((n: ItemImpl) => n.items, (n: ItemImpl, v) => n.(items := v))

  /// `ItemImpl::item(i)`: appends one associated item.
  function ItemImplItem(i: ItemImpl, item: ImplItem): (r: ItemImpl)
    ensures r.items == i.items + [item]
    ensures r.(items := i.items) == i
  {
    Push(ItemImplItems, i, item)
  }

  /// `ItemImpl::items(is)`: replaces the associated items.
  function ItemImplSetItems(i: ItemImpl, items: seq<ImplItem>): (r: ItemImpl)
    ensures r.items == items
    ensures r.(items := i.items) == i
  {
    Replace(ItemImplItems, i, items)
  }

  const ItemImplAttrs: Accessor<ItemImpl, seq<Attribute>> :=
    Accessor((n: ItemImpl) => n.attrs, (n: ItemImpl, v) => n.(attrs := v))
  const ItemImplDefaultness: Accessor<ItemImpl, Marker> :=
    Accessor((n: ItemImpl) => n.defaultness, (n: ItemImpl, v) => n.(defaultness := v))
  const ItemImplUnsafety: Accessor<ItemImpl, Marker> :=
    Accessor((n: ItemImpl) => n.unsafety, (n: ItemImpl, v) => n.(unsafety := v))
  const ItemImplGenerics: Accessor<ItemImpl, Generics> :=
    Accessor((n: ItemImpl) => n.generics, (n: ItemImpl, v) => n.(generics := v))

  // ---- ItemMacro -------------------------------------------------------------

  /// `item_macro(ident, mac)`: a named macro item (`macro_rules! ident ..`)
  /// without a trailing `;`.
  function NewItemMacro(ident: Ident, mac: Macro): (r: ItemMacro)
    ensures r.ident == Some(ident) && r.mac == mac
    ensures r.attrs == [] && r.semiToken.None?
  {
    ItemMacro([], Some(ident), mac, None)
  }

  const ItemMacroAttrs: Accessor<ItemMacro, seq<Attribute>> :=
    Accessor((n: ItemMacro) => n.attrs, (n: ItemMacro, v) => n.(attrs := v))

  // ---- ItemMod ---------------------------------------------------------------

  /// `item_mod(ident)`: `mod ident;`, private and safe, with neither inline
  /// content nor an explicit `;`.
  function NewItemMod(ident: Ident): (r: ItemMod)
    ensures r.ident == ident && r.content.None? && r.semi.None?
    ensures r.attrs == [] && r.vis == Inherited && r.unsafety.None?
  {
    ItemMod([], Inherited, None, ident, None, None)
  }

  /// `ItemMod::content(items)`: `mod ident { items }`; the `;` is left as it was.
  function ItemModContent(m: ItemMod, items: seq<Item>): (r: ItemMod)
    ensures r.content == Some(items)
    ensures r.(content := m.content) == m
  {
    m.(content := Some(items))
  }

  const ItemModAttrs: Accessor<ItemMod, seq<Attribute>> :=
    Accessor((n: ItemMod) => n.attrs, (n: ItemMod, v) => n.(attrs := v))
  const ItemModVis: Accessor<ItemMod, Visibility> :=
    Accessor((n: ItemMod) => n.vis, (n: ItemMod, v) => n.(vis := v))
  const ItemModUnsafety: Accessor<ItemMod, Marker> :=
    Accessor((n: ItemMod) => n.unsafety, (n: ItemMod, v) => n.(unsafety := v))

  // ---- ItemStatic ------------------------------------------------------------

  /// `item_static(ident, ty, expr)`: `static ident: ty = expr;`, private and
  /// immutable.
  function NewItemStatic(ident: Ident, ty: Type, expr: Expr): (r: ItemStatic)
    ensures r.ident == ident && r.ty == ty && r.expr == expr
    ensures r.attrs == [] && r.vis == Inherited && r.mutability == Immutable
  {
    ItemStatic([], Inherited, Immutable, ident, ty, expr)
  }

  /// `ItemStatic::mutability(b)`: `static mut` exactly when `b` holds.
  function ItemStaticMutability(s: ItemStatic, b: bool): (r: ItemStatic)
    ensures r.mutability.Mut? <==> b
    ensures r.(mutability := s.mutability) == s
  {
    s.(mutability := if b then Mut else Immutable)
  }

  const ItemStaticAttrs: Accessor<ItemStatic, seq<Attribute>> :=
    Accessor((n: ItemStatic) => n.attrs, (n: ItemStatic, v) => n.(attrs := v))
  const ItemStaticVis: Accessor<ItemStatic, Visibility> :=
    Accessor((n: ItemStatic) => n.vis, (n: ItemStatic, v) => n.(vis := v))

  // ---- ItemStruct ------------------------------------------------------------

  /// `item_struct(ident, fields)`: a private struct without attributes or
  /// generics and without an explicit `;`.
  function NewItemStruct(ident: Ident, fields: Fields): (r: ItemStruct)
    ensures r.ident == ident && r.fields == fields && r.semiToken.None?
    ensures r.attrs == [] && r.vis == Inherited && r.generics == NoGenerics
  {
    ItemStruct([], Inherited, ident, NoGenerics, fields, None)
  }

  const ItemStructAttrs: Accessor<ItemStruct, seq<Attribute>> :=
    Accessor((n: ItemStruct) => n.attrs, (n: ItemStruct, v) => n.(attrs := v))
  const ItemStructVis: Accessor<ItemStruct, Visibility> :=
    Accessor((n: ItemStruct) => n.vis, (n: ItemStruct, v) => n.(vis := v))
  const ItemStructGenerics: Accessor<ItemStruct, Generics> :=
    Accessor((n: ItemStruct) => n.generics, (n: ItemStruct, v) => n.(generics := v))

  // ---- ItemTrait -------------------------------------------------------------

  /// `item_trait(ident)`: an empty private trait: not `unsafe`, not `auto`,
  /// no generics, no `:` and no supertraits.
  function NewItemTrait(ident: Ident): (r: ItemTrait)
    ensures r.ident == ident && r.items == [] && r.supertraits == []
    ensures r.attrs == [] && r.vis == Inherited && r.generics == NoGenerics
    ensures r.unsafety.None? && r.autoToken.None? && r.colonToken.None?
  {
    ItemTrait([], Inherited, None, None, ident, NoGenerics, None, [], [])
  }

  /// `ItemTrait::auto(b)`: `auto trait` exactly when `b` holds.
  function ItemTraitAuto(t: ItemTrait, b: bool): (r: ItemTrait)
    ensures r.autoToken.Some? <==> b
    ensures r.(autoToken := t.autoToken) == t
  {
    t.(autoToken := MarkerIf(b))
  }

  /// `ItemTrait::colon_token(b)`: the `:` before the supertraits, written
  /// exactly when `b` holds; it is independent of the supertraits themselves.
  function ItemTraitColonToken(t: ItemTrait, b: bool): (r: ItemTrait)
    ensures r.colonToken.Some? <==> b
    ensures r.(colonToken := t.colonToken) == t
  {
    t.(colonToken := MarkerIf(b))
  }

  /// `ItemTrait::supertraits(bs)`: replaces the supertraits; the `:` is left
  /// as it was.
  function ItemTraitSupertraits(t: ItemTrait, bounds: seq<TypeParamBound>): (r: ItemTrait)
    ensures r.supertraits == bounds
    ensures r.(supertraits := t.supertraits) == t
  {
    t.(supertraits := bounds)
  }

  const ItemTraitItems: Accessor<ItemTrait, seq<TraitItem>> :=
    Accessor((n: ItemTrait) => n.items, (n: ItemTrait, v) => n.(items := v))

  /// `ItemTrait::item(i)`: appends one associated item.
  function ItemTraitItem(t: ItemTrait, item: TraitItem): (r: ItemTrait)
    ensures r.items == t.items + [item]
    ensures r.(items := t.items) == t
  {
    Push(ItemTraitItems, t, item)
  }

  /// `ItemTrait::items(is)`: replaces the associated items.
  function ItemTraitSetItems(t: ItemTrait, items: seq<TraitItem>): (r: ItemTrait)
    ensures r.items == items
    ensures r.(items := t.items) == t
  {
    Replace(ItemTraitItems, t, items)
  }

  const ItemTraitAttrs: Accessor<ItemTrait, seq<Attribute>> :=
    Accessor((n: ItemTrait) => n.attrs, (n: ItemTrait, v) => n.(attrs := v))
  const ItemTraitVis: Accessor<ItemTrait, Visibility> :=
    Accessor((n: ItemTrait) => n.vis, (n: ItemTrait, v) => n.(vis := v))
  const ItemTraitUnsafety: Accessor<ItemTrait, Marker> :=
    Accessor((n: ItemTrait) => n.unsafety, (n: ItemTrait, v) => n.(unsafety := v))
  const ItemTraitGenerics: Accessor<ItemTrait, Generics> :=
    Accessor((n: ItemTrait) => n.generics, (n: ItemTrait, v) => n.(generics := v))

  // ---- ItemTraitAlias, ItemType, ItemUnion -----------------------------------

  /// `item_trait_alias(ident, bounds)`: `trait ident = bounds;` with the bounds
  /// in order.
  function NewItemTraitAlias(ident: Ident, bounds: seq<TypeParamBound>): (r: ItemTraitAlias)
    ensures r.ident == ident && r.bounds == bounds
    ensures r.attrs == [] && r.vis == Inherited && r.generics == NoGenerics
  {
    ItemTraitAlias([], Inherited, ident, NoGenerics, bounds)
  }

  const ItemTraitAliasAttrs: Accessor<ItemTraitAlias, seq<Attribute>> :=
    Accessor((n: ItemTraitAlias) => n.attrs, (n: ItemTraitAlias, v) => n.(attrs := v))
  const ItemTraitAliasVis: Accessor<ItemTraitAlias, Visibility> :=
    Accessor((n: ItemTraitAlias) => n.vis, (n: ItemTraitAlias, v) => n.(vis := v))
  const ItemTraitAliasGenerics: Accessor<ItemTraitAlias, Generics> :=
    Accessor((n: ItemTraitAlias) => n.generics, (n: ItemTraitAlias, v) => n.(generics := v))

  /// `item_type(ident, ty)`: `type ident = ty;`.
  function NewItemType(ident: Ident, ty: Type): (r: ItemType)
    ensures r.ident == ident && r.ty == ty
    ensures r.attrs == [] && r.vis == Inherited && r.generics == NoGenerics
  {
    ItemType([], Inherited, ident, NoGenerics, ty)
  }

  const ItemTypeAttrs: Accessor<ItemType, seq<Attribute>> :=
    Accessor((n: ItemType) => n.attrs, (n: ItemType, v) => n.(attrs := v))
  const ItemTypeVis: Accessor<ItemType, Visibility> :=
    Accessor((n: ItemType) => n.vis, (n: ItemType, v) => n.(vis := v))
  const ItemTypeGenerics: Accessor<ItemType, Generics> :=
    Accessor((n: ItemType) => n.generics, (n: ItemType, v) => n.(generics := v))

  /// `item_union(ident, fields)`: `union ident { fields }`.
  function NewItemUnion(ident: Ident, fields: FieldsNamed): (r: ItemUnion)
    ensures r.ident == ident && r.fields == fields
    ensures r.attrs == [] && r.vis == Inherited && r.generics == NoGenerics
  {
    ItemUnion([], Inherited, ident, NoGenerics, fields)
  }

  const ItemUnionAttrs: Accessor<ItemUnion, seq<Attribute>> :=
    Accessor((n: ItemUnion) => n.attrs, (n: ItemUnion, v) => n.(attrs := v))
  const ItemUnionVis: Accessor<ItemUnion, Visibility> :=
    Accessor((n: ItemUnion) => n.vis, (n: ItemUnion, v) => n.(vis := v))
  const ItemUnionGenerics: Accessor<ItemUnion, Generics> :=
    Accessor((n: ItemUnion) => n.generics, (n: ItemUnion, v) => n.(generics := v))

  // ---- ItemUse and use trees -------------------------------------------------

  /// `item_use(tree)`: `use tree;`, private, without a leading `::`.
  function NewItemUse(tree: UseTree): (r: ItemUse)
    ensures r.tree == tree && r.leadingColon.None?
    ensures r.attrs == [] && r.vis == Inherited
  {
    ItemUse([], Inherited, None, tree)
  }

  /// `ItemUse::leading(b)`: `use ::tree;` exactly when `b` holds.
  function ItemUseLeading(u: ItemUse, b: bool): (r: ItemUse)
    ensures r.leadingColon.Some? <==> b
    ensures r.(leadingColon := u.leadingColon) == u
  {
    u.(leadingColon := MarkerIf(b))
  }

  const ItemUseAttrs: Accessor<ItemUse, seq<Attribute>> :=
    Accessor((n: ItemUse) => n.attrs, (n: ItemUse, v) => n.(attrs := v))
  const ItemUseVis: Accessor<ItemUse, Visibility> :=
    Accessor((n: ItemUse) => n.vis, (n: ItemUse, v) => n.(vis := v))

  /// `use_path(ident, tree)`: `ident::tree`.
  function NewUsePath(ident: Ident, tree: UseTree): (r: UsePath)
    ensures r.ident == ident && r.tree == tree
  {
    UsePath(ident, tree)
  }

  /// `use_name(ident)`: the bare name `ident`.
  function NewUseName(ident: Ident): (r: UseName)
    ensures r.ident == ident
  {
    UseName(ident)
  }

  /// `use_rename(name, rename)`: `name as rename`, in that order.
  function NewUseRename(name: Ident, rename: Ident): (r: UseRename)
    ensures r.ident == name && r.rename == rename
  {
    UseRename(name, rename)
  }

  /// `use_group(items)`: `{ items }` in order.
  function NewUseGroup(items: seq<UseTree>): (r: UseGroup)
    ensures r.items == items
  {
    UseGroup(items)
  }

  /// The names a `use` tree brings into scope, in order, read off its leaves
  /// as written: a glob brings in no name the tree can state, and a `self`
  /// leaf (`use a::{self}`, which imports `a`) is reported as `self`.
  function UseTreeNames(t: UseTree): (names: seq<Ident>)
    ensures match t
      case Name(n) => names == [n.ident]
      case Rename(r) => names == [r.rename]
      case Glob(_) => names == []
      case _ => true
  {
    match t
    case Path(p) => UseTreeNames(p.tree)
    case Name(n) => [n.ident]
    case Rename(r) => [r.rename]
    case Glob(_) => []
    case Group(g) => UseGroupNames(g.items)
  }

  /// The names a group `{ items }` brings into scope: those of its trees, in order.
  function UseGroupNames(items: seq<UseTree>): (names: seq<Ident>)
    ensures items == [] ==> names == []
    ensures |items| == 1 ==> names == UseTreeNames(items[0])
  {
    if items == [] then [] else UseTreeNames(items[0]) + UseGroupNames(items[1..])
  }

  /// A group split in two brings in the names of the first part, then those
  /// of the second.
  lemma {:induction false} UseGroupNamesAppend(xs: seq<UseTree>, ys: seq<UseTree>)
    ensures UseGroupNames(xs + ys) == UseGroupNames(xs) + UseGroupNames(ys)
  {
    if xs == [] {
      assert xs + ys == ys;
    } else {
      assert (xs + ys)[0] == xs[0];
      assert (xs + ys)[1..] == xs[1..] + ys;
      UseGroupNamesAppend(xs[1..], ys);
    }
  }

  /// `use a::{b, c as d}` as the builders write it brings `b` and `d` into
  /// scope: `use_rename` puts the new name second, and `use_path` keeps the
  /// names of its subtree.
  lemma UseTreeBuildersNames(a: Ident, b: Ident, c: Ident, d: Ident)
    ensures var group := NewUseGroup([UseTree.Name(NewUseName(b)), UseTree.Rename(NewUseRename(c, d))]);
      UseTreeNames(UseTree.Path(NewUsePath(a, UseTree.Group(group)))) == [b, d]
  {
    var items := [UseTree.Name(NewUseName(b)), UseTree.Rename(NewUseRename(c, d))];
    assert items[1..][1..] == [];
    assert UseGroupNames(items[1..]) == [d];
    assert UseGroupNames(items) == [b, d];
  }

  // ---- properties ------------------------------------------------------------

  /// Every accessor of this file reaches its own field.
  lemma ItemListAccessorsLawful()
    ensures Lawful(ItemEnumVariants) && Lawful(ItemForeignModItems)
    ensures Lawful(ItemImplItems) && Lawful(ItemTraitItems)
  {
  }

  lemma ItemAttrsAccessorsLawful()
    ensures Lawful(ItemConstAttrs) && Lawful(ItemEnumAttrs) && Lawful(ItemExternCrateAttrs)
    ensures Lawful(ItemFnAttrs) && Lawful(ItemForeignModAttrs) && Lawful(ItemImplAttrs)
    ensures Lawful(ItemMacroAttrs) && Lawful(ItemModAttrs) && Lawful(ItemStaticAttrs)
    ensures Lawful(ItemStructAttrs) && Lawful(ItemTraitAttrs) && Lawful(ItemTraitAliasAttrs)
    ensures Lawful(ItemTypeAttrs) && Lawful(ItemUnionAttrs) && Lawful(ItemUseAttrs)
  {
  }

  lemma ItemVisAccessorsLawful()
    ensures Lawful(ItemConstVis) && Lawful(ItemEnumVis) && Lawful(ItemExternCrateVis)
    ensures Lawful(ItemFnVis) && Lawful(ItemModVis) && Lawful(ItemStaticVis)
    ensures Lawful(ItemStructVis) && Lawful(ItemTraitVis) && Lawful(ItemTraitAliasVis)
    ensures Lawful(ItemTypeVis) && Lawful(ItemUnionVis) && Lawful(ItemUseVis)
  {
  }

  lemma ItemGenericsAccessorsLawful()
    ensures Lawful(ItemConstGenerics) && Lawful(ItemEnumGenerics) && Lawful(ItemImplGenerics)
    ensures Lawful(ItemStructGenerics) && Lawful(ItemTraitGenerics) && Lawful(ItemTraitAliasGenerics)
    ensures Lawful(ItemTypeGenerics) && Lawful(ItemUnionGenerics)
    ensures Lawful(ItemForeignModUnsafety) && Lawful(ItemImplUnsafety) && Lawful(ItemModUnsafety)
    ensures Lawful(ItemTraitUnsafety) && Lawful(ItemImplDefaultness)
  {
  }

  /// Starting from a new item, adding the elements one at a time with
  /// `variant` / `item` builds the same item as passing them all at once to
  /// `variants` / `items`.
  lemma ItemListsOneByOne(ident: Ident, abi: Abi, selfTy: Type,
                          vs: seq<Variant>, fs: seq<ForeignItem>, ims: seq<ImplItem>, ts: seq<TraitItem>)
    ensures PushAll(ItemEnumVariants, NewItemEnum(ident), vs) == ItemEnumSetVariants(NewItemEnum(ident), vs)
    ensures PushAll(ItemForeignModItems, NewItemForeignMod(abi), fs)
            == ItemForeignModSetItems(NewItemForeignMod(abi), fs)
    ensures PushAll(ItemImplItems, NewItemImpl(selfTy), ims) == ItemImplSetItems(NewItemImpl(selfTy), ims)
    ensures PushAll(ItemTraitItems, NewItemTrait(ident), ts) == ItemTraitSetItems(NewItemTrait(ident), ts)
  {
    ItemListAccessorsLawful();
    PushChainFromEmpty(ItemEnumVariants, NewItemEnum(ident), vs);
    PushChainFromEmpty(ItemForeignModItems, NewItemForeignMod(abi), fs);
    PushChainFromEmpty(ItemImplItems, NewItemImpl(selfTy), ims);
    PushChainFromEmpty(ItemTraitItems, NewItemTrait(ident), ts);
  }

  /// The list setters and the attribute modifiers of an item write different
  /// fields, so a chain of `variant` calls keeps the attributes, the
  /// visibility and the generics of the enum.
  lemma EnumVariantsKeepHeader(e: ItemEnum, vs: seq<Variant>)
    ensures var r := PushAll(ItemEnumVariants, e, vs);
      && r.variants == e.variants + vs
      && r.attrs == e.attrs && r.vis == e.vis && r.generics == e.generics && r.ident == e.ident
  {
    ItemListAccessorsLawful();
    PushChainAppends(ItemEnumVariants, e, vs);
    PushChainKeepsRest(ItemEnumVariants, e, vs);
  }

  /// `trait_` may be called again: the last call wins, and an `impl` for a
  /// trait keeps its self type and items.
  lemma ItemImplTraitLastWins(i: ItemImpl, b: bool, p: PathSource, c: bool, q: PathSource)
    ensures ItemImplTrait(ItemImplTrait(i, b, p), c, q) == ItemImplTrait(i, c, q)
    ensures ItemImplTrait(i, b, p).selfTy == i.selfTy && ItemImplTrait(i, b, p).items == i.items
  {
  }
}
