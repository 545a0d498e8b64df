/// Attributes and their meta items (src/attr.rs).
///
/// `attr_style_inner()` is `Inner` and `IntoAttrStyle` maps a style to itself
/// and the `!` token to `Inner`.  `IntoMeta` maps a `Meta` to itself, a
/// `MetaList` to `List`, a `MetaNameValue` to `NameValue` and (src/path.rs) a
/// `Path` to `Meta.Path`: all of them constructors of `Meta`.
module AttrBuilders {
  import opened Options
  import opened Syntax
  import opened PathBuilders

  /// `attribute(meta)`: the outer attribute `#[meta]`.
  function NewAttribute(meta: Meta): (a: Attribute)
    ensures a.meta == meta && a.style == Outer
  {
    Attribute(Outer, meta)
  }

  /// `Attribute::style(inside)`: `#![..]` when `inside` holds, `#[..]` when it
  /// does not; the meta item is kept.
  function AttributeStyle(a: Attribute, inside: bool): (r: Attribute)
    ensures r.style.Inner? <==> inside
    ensures r.meta == a.meta
  {
    a.(style := if inside then Inner else Outer)
  }

  /// The style is a plain flag: the last call wins, and `style(false)` leaves a
  /// freshly built attribute as it was.
  lemma AttributeStyleLaws(a: Attribute, b: bool, c: bool, meta: Meta)
    ensures AttributeStyle(AttributeStyle(a, b), c) == AttributeStyle(a, c)
    ensures AttributeStyle(NewAttribute(meta), false) == NewAttribute(meta)
    ensures AttributeStyle(a, a.style.Inner?) == a
  {
  }

  /// `meta_list(path, delimiter, tokens)`: `path(tokens)` with the given
  /// delimiter; the arguments are stored unchanged.
  function NewMetaList(path: PathSource, delimiter: MacroDelimiter, tokens: TokenStream): (m: MetaList)
    ensures m.path == IntoPath(path) && m.delimiter == delimiter && m.tokens == tokens
  {
    MetaList(IntoPath(path), delimiter, tokens)
  }

  /// `meta_name_value(path, value)`: `path = value`.
  function NewMetaNameValue(path: PathSource, value: Expr): (m: MetaNameValue)
    ensures m.path == IntoPath(path) && m.value == value
  {
    MetaNameValue(IntoPath(path), value)
  }
}
