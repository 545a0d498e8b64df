/// The enum that the crate's example program builds (examples/simple.rs):
///
///     pub enum my_enum { A(A, B), B, C { other: A, one: B } }
module SimpleExample {
  import opened Options
  import opened Syntax
  import opened PathBuilders
  import opened TyBuilders
  import opened DataBuilders
  import opened ItemBuilders

  /// `type_path(name)` used as a type: the path type that names exactly
  /// `name`, without a qualified-self prefix.
  function NamedType(name: string): (t: Type)
    ensures match t
      case Path(p) => p.qself.None? && GetIdent(p.path) == Some(Ident.Ident(name))
      case _ => false
  {
    Type.Path(NewTypePath(FromStr(name)))
  }

  /// The builder expression of the example program.
  function MyEnum(): (e: ItemEnum)
    ensures e.ident == Ident.Ident("my_enum")
  {
    ItemEnumSetVariants(NewItemEnum(Ident.Ident("my_enum")), [
      VariantFields(NewVariant(Ident.Ident("A")), Fields.Unnamed(NewFieldsUnnamed([
        NewField(NamedType("A")),
        NewField(NamedType("B"))]))),
      NewVariant(Ident.Ident("B")),
      VariantFields(NewVariant(Ident.Ident("C")), Fields.Named(NewFieldsNamed([
        FieldIdent(NewField(NamedType("A")), Ident.Ident("other")),
        FieldIdent(NewField(NamedType("B")), Ident.Ident("one"))])))])
  }

  /// Different names give different field types, so the field types stated
  /// below tell `A` and `B` apart.
  lemma NamedTypeInjective(a: string, b: string)
    ensures NamedType(a) == NamedType(b) <==> a == b
  {
    if NamedType(a) == NamedType(b) {
      match NamedType(a)
      case Path(p) =>
        assert GetIdent(p.path) == Some(Ident.Ident(a));
        assert GetIdent(p.path) == Some(Ident.Ident(b));
      case _ =>
    }
  }

  /// The example builds a public enum with three variants in source order: a
  /// tuple variant of two unnamed fields of types `A` and `B`, a unit variant,
  /// and a struct variant with the fields `other: A` and `one: B`, which carry
  /// their names and their `:`.
  lemma MyEnumShape()
    ensures var e := MyEnum();
      && e.vis == Public && e.attrs == [] && e.generics == NoGenerics
      && |e.variants| == 3
      && e.variants[0].ident == Ident.Ident("A")
      && (match e.variants[0].fields
            case Unnamed(u) =>
              && |u.unnamed| == 2
              && u.unnamed[0].ident.None? && u.unnamed[1].ident.None?
              && u.unnamed[0].ty == NamedType("A") && u.unnamed[1].ty == NamedType("B")
            case _ => false)
      && e.variants[1].ident == Ident.Ident("B") && e.variants[1].fields == Unit
      && e.variants[2].ident == Ident.Ident("C") && e.variants[2].fields.Named?
      && (forall v :: v in e.variants ==> v.discriminant.None? && v.attrs == [])
    ensures var fs := MyEnum().variants[2].fields;
      fs.Named? && match fs
        case Named(n) =>
          && |n.named| == 2
          && n.named[0].ident == Some(Ident.Ident("other")) && n.named[0].ty == NamedType("A")
          && n.named[1].ident == Some(Ident.Ident("one")) && n.named[1].ty == NamedType("B")
          && FieldWellFormed(n.named[0]) && FieldWellFormed(n.named[1])
        case _ => false
  {
  }
}
