# syn_builder in Dafny

`syn_builder` is a fluent construction layer over the `syn` syntax tree of
Rust. For each kind of syntax node it offers two things:

- a constructor function such as `item_enum("my_enum")` or `field(ty)`. It fills
  the node with the arguments and a fixed default in every other field;
- a set of modifiers (`.attr(a)`, `.vis(v)`, `.ident(i)`, `.rest(e)`, ...). Each
  hands back the same node with one field, or one coupled pair of fields,
  changed.

Arguments go through conversion traits such as `IntoExpr`, `IntoPath`,
`IntoStmt` and `IntoVisibility`. Each of these maps the target type to itself
and every other accepted type to a variant of the target sum type.

The model is pure. The builders take their node by value and give it back, so
every constructor is a Dafny function and every modifier is a record update
`n.(f := v)`.

## Layout

| file | module | source |
|---|---|---|
| options.dfy | `Options` | `Option`, token markers, `map(..).collect()` |
| syntax.dfy | `Syntax` | the `syn` node types the builders construct |
| macros.dfy | `Macros` | `attrs_builder!`, `vis_builder!`, `mutability_builder!`, `qself_builder!`, `label_builder!`, `output_builder!` (src/macros.rs); `generics_builder!`, `unsafety_builder!`, `defaultness_builder!` (src/item.rs) |
| path.dfy | `PathBuilders` | src/path.rs |
| restriction.dfy | `RestrictionBuilders` | src/restriction.rs |
| data.dfy, derive.dfy | `DataBuilders`, `DeriveBuilders` | src/data.rs, src/derive.rs |
| attr.dfy, mac.dfy, op.dfy | `AttrBuilders`, `MacBuilders`, `OpBuilders` | src/attr.rs, src/mac.rs, src/op.rs |
| generics.dfy, ty.dfy, pat.dfy | `GenericsBuilders`, `TyBuilders`, `PatBuilders` | src/generics.rs, src/ty.rs, src/pat.rs |
| expr.dfy, stmt.dfy | `ExprBuilders`, `StmtBuilders` | src/expr.rs, src/stmt.rs |
| item.dfy, assoc_item.dfy, signature.dfy | `ItemBuilders`, `AssocItemBuilders`, `SignatureBuilders` | src/item.rs |
| file.dfy | `FileBuilders` | src/file.rs |
| example.dfy | `SimpleExample` | examples/simple.rs |

### How the source's constructs appear in the model

- **Modifiers generated by a macro.** Each `xxx_builder!` macro of the crate
  assumes that the node has a field with a given name, and rewrites only that
  field. `Macros.Accessor` names such a field as a get/put pair. The predicate
  `Lawful` says that the accessor reaches a field of its own, and
  `Independent` says that two accessors reach different fields.
  - Every `attrs_builder!(X)` line of the crate is an accessor constant `XAttrs`.
    The same holds for the other macros.
  - The macro bodies are written once, as `Push` (`attr`), `Replace` (`attrs`,
    `vis`, `generics`), `SetFlag` (`mutability`, `unsafety`, `defaultness`),
    `SetSome` (`qself`, `label`, `generics` of associated items) and
    `SetOutput` (`output`).
  - The laws in `Macros` are proved once for every lawful accessor. The
    per-module `...AccessorsLawful` lemmas discharge `Lawful` for each accessor.
- **Tokens.** A token that may be absent (`mut`, `::`, `in`, `..`, ...) is a
  `Marker`, which is either present or absent. Always-printed punctuation is
  left out, because it carries nothing but a span.
- **Names.** Fields are named in camelCase. Where syn uses a Dafny keyword,
  the field is renamed: `label` becomes `labelled` and `method` becomes
  `methodName`.
- **Conversions.**
  - When an `IntoX` trait maps each implementing type to the variant that
    carries it, the conversion is that variant's constructor; each module's
    doc comment lists them.
  - When a conversion does more, it is a function over a small source
    datatype. This applies to `IntoPath` (from a path, an identifier or a
    string) and `IntoStmt`, and to the operator tokens of src/op.rs.
- **Lists.** A list argument `impl IntoIterator<Item = impl Into<T>>` is a
  `seq<T>`, and `map(Into::into).collect()` is `Options.Collect`.

## Model

| member | source | states |
|---|---|---|
| AssocItemBuilders.NewForeignItemFn | src/item.rs:817-824 | `foreign_item_fn(sig)`: `fn sig;` inside an `extern` block. |
| AssocItemBuilders.NewForeignItemStatic | src/item.rs:839-850 | `foreign_item_static(ident, ty)`: `static ident: ty;`, immutable. |
| AssocItemBuilders.ForeignItemStaticMutability | src/item.rs:865-874 | `ForeignItemStatic::mutability(b)`: `static mut` exactly when `b` holds. |
| AssocItemBuilders.NewForeignItemType | src/item.rs:877-886 | `foreign_item_type(ident)`: `type ident;` without generics. |
| AssocItemBuilders.NewForeignItemMacro | src/item.rs:904-910 | `foreign_item_macro(mac)`: a macro invocation without a trailing `;`. |
| AssocItemBuilders.NewTraitItemConst | src/item.rs:954-965 | `trait_item_const(ident, ty)`: `const ident: ty;` without a default. |
| AssocItemBuilders.TraitItemConstDefault | src/item.rs:980-985 | `TraitItemConst::default(e)`: `const ident: ty = e;`. |
| AssocItemBuilders.NewTraitItemFn | src/item.rs:988-995 | `trait_item_fn(sig)`: a required method `fn sig;` without a body. |
| AssocItemBuilders.TraitItemFnDefault | src/item.rs:1009-1014 | `TraitItemFn::default(block)`: a provided method with body `block`. |
| AssocItemBuilders.NewTraitItemType | src/item.rs:1017-1028 | `trait_item_type(ident)`: `type ident;` without bounds or default. |
| AssocItemBuilders.TraitItemTypeBounds | src/item.rs:1043-1053 | `TraitItemType::bounds(bs)`: `type ident: bs;`; the `:` is written even when `bs` is empty. |
| AssocItemBuilders.TraitItemTypeDefault | src/item.rs:1055-1060 | `TraitItemType::default(ty)`: `type ident = ty;`. |
| AssocItemBuilders.NewTraitItemMacro | src/item.rs:1063-1069 | `trait_item_macro(mac)`: a macro invocation without a trailing `;`. |
| AssocItemBuilders.NewImplItemConst | src/item.rs:1113-1131 | `impl_item_const(ident, ty, expr)`: `const ident: ty = expr;`, private and not `default`. |
| AssocItemBuilders.NewImplItemFn | src/item.rs:1149-1157 | `impl_item_fn(sig, block)`: a private, non-`default` method. |
| AssocItemBuilders.NewImplItemType | src/item.rs:1173-1185 | `impl_item_type(ident, ty)`: `type ident = ty;`, private, not `default`. |
| AssocItemBuilders.NewImplItemMacro | src/item.rs:1204-1210 | `impl_item_macro(mac)`: a macro invocation without a trailing `;`. |
| AssocItemBuilders.ForeignItemAccessorsLawful | src/item.rs:826-912 | the `attrs_builder!`, `vis_builder!` and `generics_builder!` lines of the foreign items each reach a field of their own |
| AssocItemBuilders.TraitItemAccessorsLawful | src/item.rs:967-1071 | the `attrs_builder!` and `generics_builder!` lines of the trait items each reach a field of their own |
| AssocItemBuilders.ImplItemAccessorsLawful | src/item.rs:1133-1212 | the `attrs_builder!`, `vis_builder!`, `defaultness_builder!` and `generics_builder!` lines of the impl items each reach a field of their own |
| AssocItemBuilders.TraitItemTypeBuildersWellFormed | src/item.rs:1017-1060 | Every trait item type built by the builders is well formed, whatever order `bounds` and `default` are called in, and the two commute. |
| AssocItemBuilders.ImplItemModifiersCommute | src/item.rs:1159-1161 | The `default` modifiers of an impl item and its visibility are independent: either order gives the same item. |
| AssocItemBuilders.ForeignItemStaticMutabilityLaws | src/item.rs:865-874 | A foreign static may have its mutability set more than once; the last call wins and setting it back restores the original. |
| AttrBuilders.NewAttribute | src/attr.rs:5-12 | `attribute(meta)`: the outer attribute `#[meta]`. |
| AttrBuilders.AttributeStyle | src/attr.rs:27-36 | `Attribute::style(inside)`: `#![..]` when `inside` holds, `#[..]` when it does not; the meta item is kept. |
| AttrBuilders.AttributeStyleLaws | src/attr.rs:27-36 | The style is a plain flag: the last call wins, and `style(false)` leaves a freshly built attribute as it was. |
| AttrBuilders.NewMetaList | src/attr.rs:65-75 | `meta_list(path, delimiter, tokens)`: `path(tokens)` with the given delimiter; the arguments are stored unchanged. |
| AttrBuilders.NewMetaNameValue | src/attr.rs:93-99 | `meta_name_value(path, value)`: `path = value`. |
| DataBuilders.NewVariant | src/data.rs:8-15 | `variant(ident)`: a unit variant without attributes or discriminant. |
| DataBuilders.VariantDiscriminant | src/data.rs:30-35 | `Variant::discriminant(e)`: `= e`; nothing else changes. |
| DataBuilders.VariantFields | src/data.rs:37-42 | `Variant::fields(f)`: replaces the field list; nothing else changes. |
| DataBuilders.NewFieldsNamed | src/data.rs:55-60 | `fields_named(fields)`: `{ fields }` in order. |
| DataBuilders.NewFieldsUnnamed | src/data.rs:78-83 | `fields_unamed(fields)`: `( fields )` in order. |
| DataBuilders.NewField | src/data.rs:101-110 | `field(ty)`: an unnamed, inherited-visibility, non-`mut` field of type `ty`. |
| DataBuilders.FieldIdent | src/data.rs:125-131 | `Field::ident(i)`: names the field and writes the `:` with it; nothing else changes. |
| DataBuilders.DataAccessorsLawful | src/data.rs:17-113 | Every accessor of this file reaches its own field, and the attribute and visibility modifiers of a field commute. |
| DataBuilders.FieldModifiersKeepWellFormed | src/data.rs:101-131 | The attribute and visibility modifiers keep a field well formed, so every field built by this crate pairs its name with its `:`. |
| DeriveBuilders.NewDeriveInput | src/derive.rs:10-18 | `derive_input(ident, data)`: inherited visibility, no attributes, no generics. |
| DeriveBuilders.DeriveInputGenerics | src/derive.rs:33-35 | `DeriveInput::generics(g)`: replaces the generics; nothing else changes. |
| DeriveBuilders.DeriveAccessorsLawful | src/derive.rs:20-21 | `attrs` and `vis` on a derive input each reach a field of their own, and they commute |
| DeriveBuilders.NewDataStruct | src/derive.rs:48-54 | `data_struct(fields)`: a struct body without a trailing `;`. |
| DeriveBuilders.NewDataEnum | src/derive.rs:72-78 | `data_enum(variants)`: the variants in order. |
| DeriveBuilders.NewDataUnion | src/derive.rs:96-101 | `data_union(fields)`: a union body, which is always a named field list. |
| SimpleExample.NamedType | examples/simple.rs:7-17 | `type_path(name)` passed where a type is expected is a path type without qualified self whose `get_ident` is exactly `name` |
| SimpleExample.NamedTypeInjective | examples/simple.rs:7-17 | two `type_path` names give the same field type exactly when the names are equal, so the types `A` and `B` of the example stay distinct |
| SimpleExample.MyEnum | examples/simple.rs:7-17 | the builder chain of the example names the enum `my_enum` |
| SimpleExample.MyEnumShape | examples/simple.rs:7-17 | The example builds a public enum with three variants in source order: a tuple variant `A` of exactly two unnamed fields of types `A` and `B`, a unit variant `B`, and a struct variant `C` with the fields `other: A` and `one: B`, which carry their names and their `:`; no variant has attributes or a discriminant |
| ExprBuilders.NewExprArray | src/expr.rs:85-91 | `expr_array(elems)`: `[elems]` in order. |
| ExprBuilders.NewExprAssign | src/expr.rs:105-112 | `expr_assign(left, right)`: `left = right`. |
| ExprBuilders.NewExprAwait | src/expr.rs:155-162 | `expr_await(base)`: `base.await`. |
| ExprBuilders.NewExprBinary | src/expr.rs:176-183 | `expr_binary(left, op, right)`: `left op right`. |
| ExprBuilders.NewExprUnary | src/expr.rs:954-960 | `expr_unary(op, expr)`: `op expr`. |
| ExprBuilders.NewExprCall | src/expr.rs:255-262 | `expr_call(func, args)`: `func(args)` with the arguments in order. |
| ExprBuilders.NewExprCast | src/expr.rs:276-283 | `expr_cast(expr, ty)`: `expr as ty`. |
| ExprBuilders.NewExprField | src/expr.rs:417-424 | `expr_field(base, member)`: `base.member`. |
| ExprBuilders.NewExprGroup | src/expr.rs:467-473 | `expr_group(expr)`: an invisible group around `expr`. |
| ExprBuilders.NewExprIndex | src/expr.rs:517-524 | `expr_index(expr, index)`: `expr[index]`. |
| ExprBuilders.NewExprInfer | src/expr.rs:538-543 | `expr_infer()`: `_` without attributes. |
| ExprBuilders.NewExprLet | src/expr.rs:557-565 | `expr_let(pat, expr)`: `let pat = expr` in a condition. |
| ExprBuilders.NewExprLit | src/expr.rs:579-584 | `expr_lit(lit)`: a literal. |
| ExprBuilders.NewExprMacro | src/expr.rs:620-625 | `expr_macro(mac)`: a macro in expression position. |
| ExprBuilders.NewExprParen | src/expr.rs:705-711 | `expr_paren(expr)`: `(expr)`. |
| ExprBuilders.NewExprRepeat | src/expr.rs:799-807 | `expr_repeat(expr, len)`: `[expr; len]`. |
| ExprBuilders.NewExprTry | src/expr.rs:894-900 | `expr_try(expr)`: `expr?`. |
| ExprBuilders.NewExprTuple | src/expr.rs:934-940 | `expr_tuple(elems)`: `(elems)` in order. |
| ExprBuilders.NewExprReference | src/expr.rs:777-784 | `expr_reference(expr)`: `&expr` without `mut`. |
| ExprBuilders.NewExprPath | src/expr.rs:719-725 | `expr_path(path)`: a path expression without a qualified self. |
| ExprBuilders.NewExprAsync | src/expr.rs:126-133 | `expr_async(block)`: `async { .. }` without `move`. |
| ExprBuilders.ExprAsyncCapture | src/expr.rs:147-152 | `ExprAsync::capture(b)`: `async move { .. }` exactly when `b` holds; nothing else changes. |
| ExprBuilders.NewExprBlock | src/expr.rs:197-203 | `expr_block(block)`: `{ .. }` without a label. |
| ExprBuilders.NewExprConst | src/expr.rs:369-375 | `expr_const(block)`: `const { .. }`. |
| ExprBuilders.NewExprTryBlock | src/expr.rs:914-920 | `expr_try_block(block)`: `try { .. }`. |
| ExprBuilders.NewExprUnsafe | src/expr.rs:974-980 | `expr_unsafe(block)`: `unsafe { .. }`. |
| ExprBuilders.NewExprBreak | src/expr.rs:218-225 | `expr_break()`: `break` without a label or value. |
| ExprBuilders.ExprBreakLabel | src/expr.rs:240-245 | `ExprBreak::label(l)`: `break 'l ..`; nothing else changes. |
| ExprBuilders.ExprBreakExpr | src/expr.rs:247-252 | `ExprBreak::expr(x)`: `break .. x`; nothing else changes. |
| ExprBuilders.NewExprContinue | src/expr.rs:389-395 | `expr_continue()`: `continue` without a label. |
| ExprBuilders.ExprContinueLabel | src/expr.rs:409-414 | `ExprContinue::label(l)`: `continue 'l`; nothing else changes. |
| ExprBuilders.NewExprReturn | src/expr.rs:821-827 | `expr_return()`: `return` without a value. |
| ExprBuilders.ExprReturnExpr | src/expr.rs:841-846 | `ExprReturn::expr(x)`: `return x`; nothing else changes. |
| ExprBuilders.NewExprYield | src/expr.rs:1017-1023 | `expr_yield()`: `yield` without a value. |
| ExprBuilders.ExprYieldExpr | src/expr.rs:1037-1042 | `ExprYield::expr(x)`: `yield x`; nothing else changes. |
| ExprBuilders.ExprBreakSettersCommute | src/expr.rs:240-252 | `break 'l x` may be built in either order. |
| ExprBuilders.NewExprForLoop | src/expr.rs:438-452 | `expr_for_loop(pat, expr, body)`: `for pat in expr { body }` without a label. |
| ExprBuilders.NewExprLoop | src/expr.rs:598-605 | `expr_loop(body)`: `loop { body }` without a label. |
| ExprBuilders.NewExprWhile | src/expr.rs:994-1002 | `expr_while(cond, body)`: `while cond { body }` without a label. |
| ExprBuilders.NewExprIf | src/expr.rs:487-495 | `expr_if(cond, then)`: `if cond { then }` without an `else`. |
| ExprBuilders.ExprIfElse | src/expr.rs:509-514 | `ExprIf::else_branch(x)`: `if .. else x`; nothing else changes. |
| ExprBuilders.NewExprMatch | src/expr.rs:639-647 | `expr_match(expr, arms)`: `match expr { arms }` with the arms in order. |
| ExprBuilders.NewArm | src/expr.rs:1097-1106 | `arm(pat, body)`: `pat => body,` without a guard, with its comma. |
| ExprBuilders.ArmGuard | src/expr.rs:1120-1125 | `Arm::guard(g)`: `pat if g => body`; nothing else changes. |
| ExprBuilders.NewLabel | src/expr.rs:1080-1085 | `label(name)`: the loop label `'name:`. |
| ExprBuilders.NewExprClosure | src/expr.rs:297-314 | `expr_closure(inputs, body)`: `\|inputs\| body` with the inputs in order and no `for<>`, `const`, `static`, `async`, `move` or return type. |
| ExprBuilders.ExprClosureLifetimes | src/expr.rs:333-338 | `ExprClosure::lifetimes(b)`: the empty `for<>` exactly when `b` holds; nothing else changes. |
| ExprBuilders.ExprClosureConstness | src/expr.rs:340-345 | `ExprClosure::constness(b)`: `const \|..\|` exactly when `b` holds. |
| ExprBuilders.ExprClosureMovability | src/expr.rs:347-352 | `ExprClosure::movability(b)`: `static \|..\|` exactly when `b` holds. |
| ExprBuilders.ExprClosureAsyncness | src/expr.rs:354-359 | `ExprClosure::asyncness(b)`: `async \|..\|` exactly when `b` holds. |
| ExprBuilders.ExprClosureCapture | src/expr.rs:361-366 | `ExprClosure::capture(b)`: `move \|..\|` exactly when `b` holds. |
| ExprBuilders.ExprClosureFlagsCommute | src/expr.rs:333-366 | The closure flags are independent switches: any two commute, setting one to `false` on a fresh closure changes nothing, and the inputs and body survive them all. |
| ExprBuilders.NewExprMethodCall | src/expr.rs:661-675 | `expr_method_call(receiver, method, args)`: `receiver.method(args)` with the arguments in order and no turbofish. |
| ExprBuilders.ExprMethodCallTurbofish | src/expr.rs:697-702 | `ExprMethodCall::turbofish(g)`: `receiver.method::<g>(args)`; nothing else changes. |
| ExprBuilders.NewExprRange | src/expr.rs:740-747 | `expr_range(limits)`: `..` or `..=` with neither bound. |
| ExprBuilders.ExprRangeEnd | src/expr.rs:769-774 | `ExprRange::end(x)`: `..x`; nothing else changes. |
| ExprBuilders.ExprRangeStart | src/expr.rs:762-767 | `ExprRange::start(x)` as the crate writes it: the expression goes into the END bound, exactly as `end(x)` does, and the start bound is untouched. |
| ExprBuilders.ExprRangeStartWritesEnd | src/expr.rs:762-774 | The defect: `expr_range(l).start(a)` has no start bound, it is the same range as `expr_range(l).end(a)`, and a later `end(b)` erases `a` altogether, so `a..b` cannot be built. |
| ExprBuilders.ExprRangeStartIntended | src/expr.rs:762-767 | `ExprRange::start(x)` as intended: `x..`; nothing else changes. |
| ExprBuilders.ExprRangeIntendedBuildsBoth | src/expr.rs:740-774 | With the intended `start`, `expr_range(l).start(a).end(b)` is `a..b` (or `a..=b`), in either order of the two calls. |
| ExprBuilders.NewExprStruct | src/expr.rs:849-862 | `expr_struct(path, fields)`: `path { fields }` in order, without `..`, base expression or qualified self. |
| ExprBuilders.ExprStructDot2Token | src/expr.rs:878-883 | `ExprStruct::dot2_token(b)`: the `..` is present exactly when `b` holds; nothing else changes.  Dropping it while a base is present gives a literal that is no longer well formed. |
| ExprBuilders.ExprStructRest | src/expr.rs:885-891 | `ExprStruct::rest(x)`: `path { fields, ..x }`, writing the `..` with the base; nothing else changes. |
| ExprBuilders.ExprStructRestImpliesDot2 | src/expr.rs:878-891 | `rest(x)` already writes the `..`, so `dot2_token(true)` after it changes nothing, and `rest` wins over an earlier `dot2_token(false)`. |
| ExprBuilders.NewFieldValue | src/expr.rs:1059-1066 | `field_value(member, expr)`: `member: expr`, with its colon. |
| ExprBuilders.NewIndex | src/expr.rs:1045-1047 | `index(i)`: the unnamed member `.i`. |
| ExprBuilders.ExprAttrsLawfulAToC | src/expr.rs:93-316 | The attribute accessors of the records ExprArray to ExprClosure reach their own field. |
| ExprBuilders.ExprAttrsLawfulCToL | src/expr.rs:377-607 | The attribute accessors of the records ExprConst to ExprLoop reach their own field. |
| ExprBuilders.ExprAttrsLawfulMToR | src/expr.rs:627-829 | The attribute accessors of the records ExprMacro to ExprReturn reach their own field. |
| ExprBuilders.ExprAttrsLawfulSToY | src/expr.rs:864-1108 | The attribute accessors of the records ExprStruct to Arm reach their own field. |
| ExprBuilders.ExprAccessorsLawful | src/expr.rs:206-1005 | The label, qualified-self, mutability and output accessors reach their own field, and the ones of one record are independent of its attributes. |
| FileBuilders.NewFile | src/file.rs:4-10 | `file(items)`: the items in order, without a `#!` line or inner attributes. |
| FileBuilders.FileShebang | src/file.rs:19-24 | `File::shebang(s)`: the `#!` line `s`; the items are kept. |
| FileBuilders.FileModifiersKeepItems | src/file.rs:4-24 | The `#!` line and the attributes of a file are independent of each other and of the items: a file built by `file`, `shebang` and `attr` keeps its items in order, whatever order the modifiers come in. |
| GenericsBuilders.NewGenerics | src/generics.rs:9-18 | `generics(params)`: `<params>` in order, without a where clause. |
| GenericsBuilders.GenericsWhereClause | src/generics.rs:25-30 | `Generics::where_clause(w)`: adds `where w`; nothing else changes. |
| GenericsBuilders.NewLifetimeParam | src/generics.rs:43-50 | `lifetime_param(l)`: `'l` without attributes or bounds. |
| GenericsBuilders.LifetimeParamBounds | src/generics.rs:65-71 | `LifetimeParam::bounds(bs)`: `'l: bs`, writing the `:` with the bounds. |
| GenericsBuilders.NewTypeParam | src/generics.rs:74-83 | `type_param(ident)`: `T` without attributes, bounds or default. |
| GenericsBuilders.TypeParamBounds | src/generics.rs:99-109 | `TypeParam::bounds(bs)`: `T: bs`, writing the `:` with the bounds. |
| GenericsBuilders.TypeParamDefault | src/generics.rs:111-117 | `TypeParam::default(t)`: `T = t`, writing the `=` with the default. |
| GenericsBuilders.TypeParamSettersCommute | src/generics.rs:74-117 | Bounds and default touch different fields, so they may be given in either order, and a parameter built from `type_param` stays well formed. |
| GenericsBuilders.NewConstParam | src/generics.rs:120-130 | `const_param(ident, ty)`: `const N: ty` without a default. |
| GenericsBuilders.ConstParamDefault | src/generics.rs:145-151 | `ConstParam::default(e)`: `const N: ty = e`, writing the `=` with it. |
| GenericsBuilders.GenericsAccessorsLawful | src/generics.rs:52-132 | Every accessor of this file reaches its own field, and attributes never disturb well-formedness. |
| GenericsBuilders.NewBoundLifetimes | src/generics.rs:154-165 | `bound_lifetimes(ls)`: `for<ls>` in order. |
| GenericsBuilders.NewTraitBound | src/generics.rs:189-196 | `trait_bound(path)`: `path` without parentheses, `?` or `for<..>`. |
| GenericsBuilders.TraitBoundLifetimes | src/generics.rs:210-215 | `TraitBound::lifetimes(l)`: `for<..> path`; nothing else changes. |
| GenericsBuilders.TraitBoundMaybe | src/generics.rs:217-226 | `TraitBound::modifier(maybe)`: `?path` exactly when `maybe` holds; nothing else changes. |
| GenericsBuilders.TraitBoundMaybeLaws | src/generics.rs:189-226 | The modifier is a plain flag: the last call wins and `modifier(false)` leaves a fresh bound unchanged. |
| GenericsBuilders.NewWhereClause | src/generics.rs:229-238 | `where_clause(predicates)`: `where predicates` in order. |
| GenericsBuilders.NewPredicateLifetime | src/generics.rs:250-259 | `predicate_lifetime(l, bounds)`: `'l: bounds`. |
| GenericsBuilders.NewPredicateType | src/generics.rs:267-281 | `predicate_type(ty, bounds)`: `ty: bounds` without `for<..>`. |
| GenericsBuilders.PredicateTypeLifetimes | src/generics.rs:294-299 | `PredicateType::lifetimes(l)`: `for<..> ty: bounds`; nothing else changes. |
| ItemBuilders.NewItemConst | src/item.rs:117-130 | `item_const(ident, ty, expr)`: `const ident: ty = expr;`, private, without attributes or generics. |
| ItemBuilders.NewItemEnum | src/item.rs:146-156 | `item_enum(ident)`: unlike every other item builder, the enum starts out `pub`; it has no attributes, generics or variants. |
| ItemBuilders.ItemEnumVariant | src/item.rs:173-176 | `ItemEnum::variant(v)`: appends one variant; nothing else changes. |
| ItemBuilders.ItemEnumSetVariants | src/item.rs:178-183 | `ItemEnum::variants(vs)`: replaces the variants by `vs` in order. |
| ItemBuilders.NewItemExternCrate | src/item.rs:186-196 | `item_extern_crate(ident)`: `extern crate ident;` without a rename. |
| ItemBuilders.ItemExternCrateRename | src/item.rs:211-216 | `ItemExternCrate::rename(i)`: `extern crate ident as i;`; the crate name is kept. |
| ItemBuilders.NewItemFn | src/item.rs:219-226 | `item_fn(sig, block)`: a private function without attributes. |
| ItemBuilders.NewItemForeignMod | src/item.rs:241-249 | `item_foreign_mod(abi)`: an empty, safe `extern "abi" { }` block. |
| ItemBuilders.ItemForeignModItem | src/item.rs:275-278 | `ItemForeignMod::item(i)`: appends one foreign item. |
| ItemBuilders.ItemForeignModSetItems | src/item.rs:265-273 | `ItemForeignMod::items(is)`: replaces the foreign items. |
| ItemBuilders.NewItemImpl | src/item.rs:281-293 | `item_impl(self_ty)`: an inherent `impl self_ty { }`, neither `default` nor `unsafe`, without generics or items. |
| ItemBuilders.ItemImplTrait | src/item.rs:314-323 | `ItemImpl::trait_(bang, path)`: `impl !path for self_ty` when `bang` holds, `impl path for self_ty` otherwise; the self type and the items are kept. |
| ItemBuilders.ItemImplItem | src/item.rs:335-338 | `ItemImpl::item(i)`: appends one associated item. |
| ItemBuilders.ItemImplSetItems | src/item.rs:325-333 | `ItemImpl::items(is)`: replaces the associated items. |
| ItemBuilders.NewItemMacro | src/item.rs:341-348 | `item_macro(ident, mac)`: a named macro item (`macro_rules! ident ..`) without a trailing `;`. |
| ItemBuilders.NewItemMod | src/item.rs:362-372 | `item_mod(ident)`: `mod ident;`, private and safe, with neither inline content nor an explicit `;`. |
| ItemBuilders.ItemModContent | src/item.rs:388-396 | `ItemMod::content(items)`: `mod ident { items }`; the `;` is left as it was. |
| ItemBuilders.NewItemStatic | src/item.rs:399-412 | `item_static(ident, ty, expr)`: `static ident: ty = expr;`, private and immutable. |
| ItemBuilders.ItemStaticMutability | src/item.rs:427-436 | `ItemStatic::mutability(b)`: `static mut` exactly when `b` holds. |
| ItemBuilders.NewItemStruct | src/item.rs:439-449 | `item_struct(ident, fields)`: a private struct without attributes or generics and without an explicit `;`. |
| ItemBuilders.NewItemTrait | src/item.rs:467-482 | `item_trait(ident)`: an empty private trait: not `unsafe`, not `auto`, no generics, no `:` and no supertraits. |
| ItemBuilders.ItemTraitAuto | src/item.rs:505-510 | `ItemTrait::auto(b)`: `auto trait` exactly when `b` holds. |
| ItemBuilders.ItemTraitColonToken | src/item.rs:512-517 | `ItemTrait::colon_token(b)`: the `:` before the supertraits, written exactly when `b` holds; it is independent of the supertraits themselves. |
| ItemBuilders.ItemTraitSupertraits | src/item.rs:519-528 | `ItemTrait::supertraits(bs)`: replaces the supertraits; the `:` is left as it was. |
| ItemBuilders.ItemTraitItem | src/item.rs:540-543 | `ItemTrait::item(i)`: appends one associated item. |
| ItemBuilders.ItemTraitSetItems | src/item.rs:530-538 | `ItemTrait::items(is)`: replaces the associated items. |
| ItemBuilders.NewItemTraitAlias | src/item.rs:546-564 | `item_trait_alias(ident, bounds)`: `trait ident = bounds;` with the bounds in order. |
| ItemBuilders.NewItemType | src/item.rs:588-599 | `item_type(ident, ty)`: `type ident = ty;`. |
| ItemBuilders.NewItemUnion | src/item.rs:615-624 | `item_union(ident, fields)`: `union ident { fields }`. |
| ItemBuilders.NewItemUse | src/item.rs:640-649 | `item_use(tree)`: `use tree;`, private, without a leading `::`. |
| ItemBuilders.ItemUseLeading | src/item.rs:664-669 | `ItemUse::leading(b)`: `use ::tree;` exactly when `b` holds. |
| ItemBuilders.NewUsePath | src/item.rs:702-708 | `use_path(ident, tree)`: `ident::tree`. |
| ItemBuilders.NewUseName | src/item.rs:720-724 | `use_name(ident)`: the bare name `ident`. |
| ItemBuilders.NewUseRename | src/item.rs:736-742 | `use_rename(name, rename)`: `name as rename`, in that order. |
| ItemBuilders.NewUseGroup | src/item.rs:770-775 | `use_group(items)`: `{ items }` in order. |
| ItemBuilders.UseTreeNames | src/item.rs:702-775 | The names a `use` tree brings into scope, in order, read off its leaves as written: a name gives itself, a rename gives its new name, a glob gives none |
| ItemBuilders.UseGroupNames | src/item.rs:770-775 | the names a group `{ a, b, .. }` brings into scope: an empty group brings in none, a group of one tree brings in that tree's names (with UseGroupNamesAppend: those of its trees, in order) |
| ItemBuilders.UseGroupNamesAppend | src/item.rs:770-775 | the names of a group split in two are those of the first part followed by those of the second, for every split |
| ItemBuilders.UseTreeBuildersNames | src/item.rs:702-775 | `use a::{b, c as d}` as the builders write it brings `b` and `d` into scope: `use_rename` puts the new name second, and `use_path` keeps the names of its subtree. |
| ItemBuilders.ItemListAccessorsLawful | src/item.rs:173-183 | `variant`/`variants` and `item`/`items` of enums, foreign modules, impls and traits reach the item list and nothing else |
| ItemBuilders.ItemAttrsAccessorsLawful | src/item.rs:132-652 | the `attrs_builder!` line of each of the fifteen item kinds reaches the attribute list and nothing else |
| ItemBuilders.ItemVisAccessorsLawful | src/item.rs:133-652 | the `vis_builder!` line of each item kind that has one reaches the visibility and nothing else |
| ItemBuilders.ItemGenericsAccessorsLawful | src/item.rs:23-36 | `generics_builder!` (and the `unsafety_builder!`/`defaultness_builder!` flags) reach their own field of each item kind |
| ItemBuilders.ItemListsOneByOne | src/item.rs:173-183 | Starting from a new item, adding the elements one at a time with `variant` / `item` builds the same item as passing them all at once to `variants` / `items`. |
| ItemBuilders.EnumVariantsKeepHeader | src/item.rs:158-183 | The list setters and the attribute modifiers of an item write different fields, so a chain of `variant` calls keeps the attributes, the visibility and the generics of the enum. |
| ItemBuilders.ItemImplTraitLastWins | src/item.rs:314-323 | `trait_` may be called again: the last call wins, and an `impl` for a trait keeps its self type and items. |
| MacBuilders.NewMacro | src/mac.rs:9-16 | `r#macro(path, tokens)`: `path!(tokens)`, delimited by parentheses. |
| MacBuilders.MacroNamedByIdent | src/mac.rs:9-16 | A macro named by a single identifier keeps that name as its only path segment, and the tokens pass through untouched. |
| Macros.PushAppends | src/macros.rs:15-19 | One push appends its element after the ones already there. |
| Macros.ReplaceLaws | src/macros.rs:20-26 | A replacement is read back as given, the last one wins, and it discards whatever an earlier push added. |
| Macros.ReplaceDiscardsPush | src/macros.rs:11-29 | `attrs(xs)` after `attr(a)` gives the node `attrs(xs)` gives: the list setter discards what was pushed |
| Macros.PushChainAppends | src/macros.rs:15-19 | A chain of pushes appends its elements in call order. |
| Macros.PushChainFromEmpty | src/macros.rs:11-29 | From an empty list, pushing `x1 .. xn` one by one builds the same node as replacing the list with `[x1, .., xn]`. |
| Macros.PushChainKeepsRest | src/macros.rs:15-19 | Pushing only ever writes the list: the node after a chain of pushes is the original node with the longer list put in. |
| Macros.ReplaceAfterPushChain | src/macros.rs:11-29 | A later replacement discards whatever a chain of pushes added. |
| Macros.FlagLaws | src/macros.rs:36-49 | a token flag is present exactly when it was set; setting it twice is setting it once, and the last call wins |
| Macros.FlagUnchanged | src/macros.rs:36-49 | Setting a flag to the value it already has changes nothing. |
| Macros.SomeLaws | src/macros.rs:56-89 | `qself`/`label`/`generics` make the optional part present with the given value; the last call wins |
| Macros.OutputLaws | src/macros.rs:113-126 | `output(t)` gives the explicit return type `-> t`, never the default; the last call wins |
| Macros.ModifiersCommute | src/macros.rs:11-126 | Modifiers of two different fields do not see each other and may be applied in either order. |
| Macros.PushChainKeepsOthers | src/macros.rs:15-19 | In particular a chain of pushes leaves every other field alone. |
| OpBuilders.TokenOfBinOp | src/op.rs:3-112 | The spelling of each binary operator, read off syn's grammar (an independent reference for the table below). |
| OpBuilders.BinOpOfToken | src/op.rs:137-166 | `impl_bin_op!`: the operator a token converts into.  Every binary operator is reached, by exactly the token that spells it. |
| OpBuilders.BinOpTableBijective | src/op.rs:125-166 | The table is a bijection between the binary-operator tokens and `BinOp`: distinct tokens give distinct operators and every operator is reached. |
| OpBuilders.LogicalAndBitwiseTokens | src/op.rs:137-166 | `&&` and `\|\|` are the logical operators, `&` and `\|` the bitwise ones. |
| OpBuilders.TokenOfUnOp | src/op.rs:168-178 | The spelling of each unary operator. |
| OpBuilders.UnOpOfToken | src/op.rs:190-207 | `impl_un_op!`: `*` is `Deref`, `!` is `Not`, `-` is `Neg`. |
| OpBuilders.SharedOperatorTokens | src/op.rs:137-207 | `*` and `-` are the only tokens with both a binary and a unary reading: multiplication or dereference, subtraction or negation. |
| Options.MarkerIf | src/macros.rs:36-49 | `flag.then(Default::default)`: the token is present exactly when the flag is set. |
| Options.MarkerIsPresence | src/macros.rs:36-49 | A marker carries nothing but its presence, so it is rebuilt from it. |
| Options.Collect | src/stmt.rs:4-9 | `items.into_iter().map(convert).collect()`: converts every element, in order, and keeps the length. |
| Options.CollectAppend | src/stmt.rs:4-9 | Collecting a concatenation is concatenating what was collected. |
| PatBuilders.NewPatIdent | src/pat.rs:55-63 | `pat_ident(ident)`: a plain binding, without `ref`, `mut` or `@ subpat`. |
| PatBuilders.PatIdentByRef | src/pat.rs:79-84 | `PatIdent::by_ref(b)`: `ref ident` exactly when `b` holds; nothing else changes. |
| PatBuilders.PatIdentSubpat | src/pat.rs:86-91 | `PatIdent::subpat(s)`: `ident @ s`; nothing else changes. |
| PatBuilders.PatIdentSettersCommute | src/pat.rs:65-91 | `ref mut x @ s` may be built in any order, and `by_ref` is a plain flag. |
| PatBuilders.NewPatOr | src/pat.rs:94-100 | `pat_or(cases)`: `a \| b \| ..` in order, without a leading `\|`. |
| PatBuilders.NewPatParen | src/pat.rs:114-120 | `pat_paren(pat)`: `(pat)`. |
| PatBuilders.NewPatReference | src/pat.rs:134-141 | `pat_reference(pat)`: `&pat` without `mut`. |
| PatBuilders.NewPatRest | src/pat.rs:156-161 | `pat_rest()`: `..` without attributes. |
| PatBuilders.NewPatSlice | src/pat.rs:175-181 | `pat_slice(elems)`: `[elems]` in order. |
| PatBuilders.NewPatTuple | src/pat.rs:229-235 | `pat_tuple(elems)`: `(elems)` in order. |
| PatBuilders.NewPatTupleStruct | src/pat.rs:249-260 | `pat_tuple_struct(path, elems)`: `path(elems)` without a qualified self. |
| PatBuilders.NewPatType | src/pat.rs:275-282 | `pat_type(pat, ty)`: `pat: ty`, both kept unchanged. |
| PatBuilders.NewPatWild | src/pat.rs:296-301 | `pat_wild()`: `_` without attributes. |
| PatBuilders.NewPatStruct | src/pat.rs:195-207 | `pat_struct(path, fields)`: `path { fields }` in order, without `..` and without a qualified self. |
| PatBuilders.PatStructRest | src/pat.rs:221-226 | `PatStruct::rest(r)`: `path { fields, .. }`; nothing else changes. |
| PatBuilders.NewFieldPat | src/pat.rs:315-322 | `field_pat(member, pat)`: `member pat` without the `:` between them. |
| PatBuilders.FieldPatColonToken | src/pat.rs:336-341 | `FieldPat::colon_token(b)`: `member: pat` exactly when `b` holds; nothing else changes. |
| PatBuilders.FieldPatColonTokenLaws | src/pat.rs:315-341 | The colon is a plain flag: the last call wins, and `colon_token(false)` leaves a fresh field pattern unchanged. |
| PatBuilders.PatAccessorsLawful | src/pat.rs:65-324 | the `attrs_builder!`, `mutability_builder!` and `qself_builder!` lines of the patterns each reach a field of their own; attributes and qualified self of a struct pattern are independent |
| PathBuilders.PathFromIdent | src/path.rs:54-58 | syn's `Path::from(ident)`: one segment, no arguments, no leading `::`. |
| PathBuilders.GetIdent | src/restriction.rs:32-36 | syn's `Path::get_ident`: the identifier of a path that is nothing but one bare identifier. |
| PathBuilders.IntoPath | src/path.rs:44-64 | `into_path`: a path is kept, an identifier or a string becomes the one-segment path whose `get_ident` gives it back. |
| PathBuilders.NewPath | src/path.rs:31-36 | `path(segments)`: the segments in order, without a leading `::`. |
| PathBuilders.PathLeadingColon | src/path.rs:76-81 | `Path::leading_colon(b)`: the leading `::` is present exactly when `b` holds; a path that has it is never a bare identifier. |
| PathBuilders.NewPathSegment | src/path.rs:84-89 | `path_segment(ident)`: the segment starts without generic arguments. |
| PathBuilders.PathSegmentArguments | src/path.rs:101-106 | `PathSegment::arguments(a)`: replaces the arguments and keeps the name. |
| PathBuilders.NewAngleBracketed | src/path.rs:165-177 | `angle_bracketed_generic_arguments(args)`: `<args>` in order, no turbofish `::`. |
| PathBuilders.AngleBracketedColon2Token | src/path.rs:195-200 | `colon2_token(b)`: the turbofish `::` is present exactly when `b` holds; the arguments are kept |
| PathBuilders.NewAssocType | src/path.rs:203-210 | `assoc_type(ident, ty)`: `ident = ty` without generic arguments. |
| PathBuilders.NewAssocConst | src/path.rs:224-231 | `assoc_const(ident, value)`: `ident = value` without generic arguments. |
| PathBuilders.NewConstraint | src/path.rs:245-259 | `constraint(ident, bounds)`: `ident: bounds` with the bounds in order. |
| PathBuilders.NewParenthesized | src/path.rs:279-287 | `parenthesized_generic_arguments(inputs)`: `(inputs)` in order with the default (absent) return type. |
| PathBuilders.NewQSelf | src/path.rs:307-315 | `q_self(ty, position)`: `<ty>` without `as`. |
| PathBuilders.QSelfAsToken | src/path.rs:328-333 | `as_token(b)`: `<ty as ..>` exactly when `b` holds; the type and the position are kept |
| PathBuilders.PathAccessorsLawful | src/path.rs:212-289 | the `generics_builder!` lines of `AssocType`, `AssocConst`, `Constraint` and the `output_builder!` line of parenthesized arguments each reach a field of their own |
| PathBuilders.IntoPathRoundTrip | src/path.rs:44-64 | Round trip: the path built from an identifier or a string gives that identifier back, and a path of two or more segments has none. |
| RestrictionBuilders.NewVisRestricted | src/restriction.rs:32-44 | `vis_restricted(path)`: `pub(path)`, with `in` written exactly when the path is a custom one-identifier path.  The path is stored unchanged. |
| RestrictionBuilders.VisRestrictedLongPath | src/restriction.rs:32-44 | A path of two or more segments, or one with a leading `::`, gets no `in`. |
| RestrictionBuilders.VisRestrictedName | src/restriction.rs:30-44 | The names `self`, `super` and `crate` get no `in`; any other name does. |
| RestrictionBuilders.VisRestrictedIntended | src/restriction.rs:32-44 | `pub(path)` with `in` written for every path except the three bare keywords. |
| RestrictionBuilders.VisRestrictedAgreesOnIdents | src/restriction.rs:32-44 | The crate's classification and the intended one agree on every path made of a single bare identifier. |
| RestrictionBuilders.VisRestrictedMissesIn | src/restriction.rs:32-44 | The two differ on `a::b`: the crate builds `pub(a::b)`, which is not valid Rust, where `pub(in a::b)` is meant. |
| SignatureBuilders.NewSignature | src/item.rs:1224-1241 | `signature(ident, inputs)`: `fn ident(inputs)` with the inputs in order. |
| SignatureBuilders.SignatureConstness | src/item.rs:1261-1266 | `Signature::constness(b)`: `const fn` exactly when `b` holds. |
| SignatureBuilders.SignatureAsyncness | src/item.rs:1268-1273 | `Signature::asyncness(b)`: `async fn` exactly when `b` holds. |
| SignatureBuilders.SignatureAbi | src/item.rs:1275-1280 | `Signature::abi(abi)`: `extern "abi" fn`. |
| SignatureBuilders.SignatureVariadic | src/item.rs:1282-1287 | `Signature::variadic(v)`: `fn ident(inputs, ...)`; the inputs are kept. |
| SignatureBuilders.SignatureQualifiersUndo | src/item.rs:1243-1273 | Switching the `const`, `async` and `unsafe` qualifiers of a plain signature on and off again gives back the signature, and the name and the inputs survive the setters. |
| SignatureBuilders.SignatureSettersCommute | src/item.rs:1243-1287 | The setters of a signature write different fields: applied to the same signature in either order they give the same result. |
| SignatureBuilders.NewReceiver | src/item.rs:1312-1321 | `receiver()`: `self: Self`, by value and not `mut`, with the `:` and the type written out. |
| SignatureBuilders.ReceiverReference | src/item.rs:1337-1342 | `Receiver::reference(b)`: `&self` (without a lifetime) when `b` holds, `self` otherwise; a lifetime set earlier is dropped either way. |
| SignatureBuilders.ReceiverLifetime | src/item.rs:1344-1349 | `Receiver::lifetime(l)`: `&'l self`; this also turns a by-value receiver into a reference. |
| SignatureBuilders.ReceiverMutability | src/item.rs:1351-1356 | `Receiver::mutability(b)`: `mut self` / `&mut self` exactly when `b` holds. |
| SignatureBuilders.ReceiverTy | src/item.rs:1358-1364 | `Receiver::ty(t)`: `self: t`; the `:` is written as well. |
| SignatureBuilders.ReceiverReferenceOrder | src/item.rs:1337-1349 | `reference` and `lifetime` write the same field, so the later call decides: `lifetime` after `reference(b)` gives `&'l self` whatever `b`, and `reference(true)` after `lifetime` forgets the lifetime. |
| SignatureBuilders.ReceiverBuildersKeepColon | src/item.rs:1312-1364 | The receiver builders keep every receiver a `self` of some type with its `:`, and the modifiers of different fields commute. |
| SignatureBuilders.NewVariadic | src/item.rs:1367-1374 | `variadic()`: a bare `...` without a pattern, attributes or trailing `,`. |
| SignatureBuilders.VariadicPat | src/item.rs:1387-1392 | `Variadic::pat(p)`: `p: ...`. |
| SignatureBuilders.SignatureAccessorsLawful | src/item.rs:1243-1376 | the `unsafety_builder!`, `generics_builder!` and `output_builder!` lines of `Signature` and the `attrs_builder!` lines of `Receiver` and `Variadic` reach their own field; unsafety and generics are independent of the output |
| StmtBuilders.SourceOfStmt | src/stmt.rs:11-43 | The most specific source a statement could have been converted from: an expression statement with a `;` can only come from a `Stmt` itself. |
| StmtBuilders.IntoStmt | src/stmt.rs:11-43 | `into_stmt`: a statement is kept, the others are wrapped in their own variant, and the wrapping is undone by `SourceOfStmt`; an expression becomes a statement without a trailing `;`. |
| StmtBuilders.IntoStmtRoundTrip | src/stmt.rs:11-43 | Round trip the other way: converting the source of a statement gives the statement back, so every statement is reached. |
| StmtBuilders.NewBlock | src/stmt.rs:4-9 | `block(stmts)`: `{ stmts }`, each converted, in order. |
| StmtBuilders.NewBlockAppend | src/stmt.rs:4-9 | Building a block from two runs of statements is building it from each run and joining the statement lists. |
| StmtBuilders.NewLocal | src/stmt.rs:45-53 | `local(pat)`: `let pat;` without attributes or initialiser. |
| StmtBuilders.LocalWithInit | src/stmt.rs:62-67 | `Local::init(i)`: `let pat = ..;`; nothing else changes. |
| StmtBuilders.NewLocalInit | src/stmt.rs:70-76 | `local_init(expr)`: `= expr` without an `else` branch. |
| StmtBuilders.LocalInitDiverge | src/stmt.rs:83-88 | `LocalInit::diverge(e)`: `= expr else e`; the initialiser is kept. |
| StmtBuilders.NewStmtMacro | src/stmt.rs:91-97 | `stmt_macro(mac)`: a macro in statement position, without attributes and without a trailing `;`. |
| StmtBuilders.StmtAccessorsLawful | src/stmt.rs:55-99 | Every accessor of this file reaches its own field; the attribute list of a `let` is independent of its initialiser. |
| TyBuilders.NewTypeArray | src/ty.rs:54-61 | `type_array(elem, len)`: `[elem; len]`. |
| TyBuilders.NewTypeGroup | src/ty.rs:130-135 | `type_group(elem)`: an invisible group around `elem`. |
| TyBuilders.NewTypeParen | src/ty.rs:216-221 | `type_paren(elem)`: `(elem)`. |
| TyBuilders.NewTypeSlice | src/ty.rs:313-318 | `type_slice(elem)`: `[elem]`. |
| TyBuilders.NewTypeMacro | src/ty.rs:186-188 | `type_macro(mac)`: a macro in type position. |
| TyBuilders.NewTypeTuple | src/ty.rs:353-358 | `type_tuple(elems)`: `(elems)` in order. |
| TyBuilders.NewTypeImplTrait | src/ty.rs:147-158 | `type_impl_trait(bounds)`: `impl bounds` in order. |
| TyBuilders.NewTypeTraitObject | src/ty.rs:330-341 | `type_trait_object(bounds)`: the bounds in order, without `dyn` (the token's default is its absence). |
| TyBuilders.NewTypePath | src/ty.rs:233-238 | `type_path(path)`: a path type without a qualified-self prefix. |
| TyBuilders.TypePtrConst | src/ty.rs:252-259 | `type_ptr_const(elem)`: `*const elem`. |
| TyBuilders.TypePtrMut | src/ty.rs:261-268 | `type_ptr_mut(elem)`: `*mut elem`. |
| TyBuilders.TypePtrBuiltByOne | src/ty.rs:252-268 | Every well-formed `*const`/`*mut` type is built by exactly one of the two constructors. |
| TyBuilders.NewTypeReference | src/ty.rs:284-291 | `type_reference(elem)`: `&elem`, without a lifetime or `mut`. |
| TyBuilders.TypeReferenceLifetime | src/ty.rs:305-310 | `TypeReference::lifetime(l)`: `&'l elem`; nothing else changes. |
| TyBuilders.TypeReferenceSettersCommute | src/ty.rs:284-310 | `&'l mut elem` may be built in either order. |
| TyBuilders.NewTypeBareFn | src/ty.rs:73-84 | `type_bare_fn(inputs)`: `fn(inputs)` in order, with no `for<..>`, `unsafe`, `extern`, `...` or return type. |
| TyBuilders.TypeBareFnLifetimes | src/ty.rs:101-106 | `TypeBareFn::lifetimes(l)`: `for<..> fn(..)`; nothing else changes. |
| TyBuilders.TypeBareFnUnsafety | src/ty.rs:108-113 | `TypeBareFn::unsafety(b)`: `unsafe fn(..)` exactly when `b` holds; nothing else changes. |
| TyBuilders.TypeBareFnAbi | src/ty.rs:115-120 | `TypeBareFn::abi(a)`: `extern "a" fn(..)`; nothing else changes. |
| TyBuilders.TypeBareFnVariadic | src/ty.rs:122-127 | `TypeBareFn::variadic(v)`: `fn(inputs, ...)`; nothing else changes. |
| TyBuilders.TypeBareFnSettersCommute | src/ty.rs:73-127 | The setters of a bare function type write distinct fields: applied in any order to `type_bare_fn(inputs)` they give the same type, and the inputs survive them all. |
| TyBuilders.NewAbi | src/ty.rs:370-375 | `abi(name)`: `extern "name"`; the name is always present. |
| TyBuilders.NewBareFnArg | src/ty.rs:387-393 | `bare_fn_arg(ty)`: an unnamed argument of type `ty`. |
| TyBuilders.BareFnArgName | src/ty.rs:407-412 | `BareFnArg::name(n)`: `n: ty`; nothing else changes. |
| TyBuilders.NewBareVariadic | src/ty.rs:415-422 | `bare_variadic()`: an unnamed `...` without attributes or trailing comma. |
| TyBuilders.BareVariadicName | src/ty.rs:436-441 | `BareVariadic::name(n)`: `n: ...`; nothing else changes. |
| TyBuilders.TyAccessorsLawful | src/ty.rs:86-424 | the `qself_builder!`, `mutability_builder!`, `output_builder!` and `attrs_builder!` lines of this file each reach a field of their own |

## Left out

- src/lit.rs and src/ident.rs are not part of this model. `Ident`, `Lifetime`, `Lit`, `LitStr` and `TokenStream` are opaque values, and the validity of identifier text is not checked.
- Spans, always-printed punctuation (`#`, brackets, braces, `fn`, `;`), `Verbatim` token payloads and printing with `to_tokens` are left out: they hold no information the builders choose.
- The I/O of examples/simple.rs is left out; only the tree it builds is stated.
- Rust's generic dispatch (`impl Into<..>`, `impl IntoIterator`) and `Box` are not modelled. Conversions are explicit constructors or functions, lists are sequences, and boxes are the values they hold.
- `attr` and the list `item`/`variant` methods take `mut self` and push in place. Because the builder owns its node, they are modelled as functions that return the node with the longer list.
- The `ItemTrait` restriction field, and the other syn fields that no builder sets, are not modelled.
- `ExprParenBuilder` has no behaviour beyond `expr_paren`, because src/expr.rs declares the trait without an impl.
- ItemBuilders.UseTreeNames: reports each leaf as written, so the `self` leaf of `use a::{self}` is reported as `self`, though Rust reads it as importing `a`.
- The trait names of src/lib.rs, whose re-exports name traits that the modules do not define, are not modelled; each capability is modelled once.
- ExprBuilders.NewIndex: syn's `Index::from` panics on an index of `u32::MAX` or more; the model requires `i < IndexLimit` instead of modelling the panic.
- SignatureBuilders.ReceiverReference: `receiver().reference(true)` keeps the `:` and the `Self` type that `receiver()` writes. How syn prints such a receiver is not part of this model.

## Findings

| source | as written | input that shows it | evidently intended | confidence | as-written member | corrected member |
|---|---|---|---|---|---|---|
| src/expr.rs:762-767 | `ExprRange::start(x)` stores `x` in the `end` field | `expr_range(l).start(a).end(b)` has no start bound and end `b`, so `a..b` cannot be built | `start(x)` sets the `start` field | high, not executed | ExprBuilders.ExprRangeStartWritesEnd | ExprBuilders.ExprRangeStartIntended |
| src/restriction.rs:32-44 | `vis_restricted` writes `in` only for a one-identifier path other than `self`/`super`/`crate` | `vis_restricted(path(["a", "b"]))` builds `pub(a::b)`, which Rust rejects | `in` for every path other than the three bare keywords (`pub(in a::b)`) | medium, not executed | RestrictionBuilders.VisRestrictedMissesIn | RestrictionBuilders.VisRestrictedIntended |

The crate's behaviour is what the builders model: `ExprRangeStart` and
`NewVisRestricted` are the code as written. The corrected definitions
`ExprRangeStartIntended` and `VisRestrictedIntended` sit beside them, each with
its intended property proved: `ExprRangeIntendedBuildsBoth` and
`VisRestrictedAgreesOnIdents`.

The intended behaviour of `vis_restricted` follows from Rust's grammar for
visibilities. Only `pub(crate)`, `pub(self)` and `pub(super)` are written
without `in`; every other path needs the form `pub(in path)`. The code gives
`in` only to single identifiers (src/restriction.rs:34-36). The model follows
the code, and the second finding records the difference.
