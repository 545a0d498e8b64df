/// Builders for enum variants, struct fields and field lists (src/data.rs).
///
/// `IntoFields` maps `Fields` to itself, `FieldsNamed` to `Fields.Named` and
/// `FieldsUnnamed` to `Fields.Unnamed`: these are the constructors of `Fields`.
module DataBuilders {
  import opened Options
  import opened Syntax
  import opened Macros

  // ---- Variant ---------------------------------------------------------------

  /// `variant(ident)`: a unit variant without attributes or discriminant.
  function NewVariant(ident: Ident): (v: Variant)
    ensures v.ident == ident && v.attrs == []
    ensures v.fields == Unit && v.discriminant.None?
  {
    Variant([], ident, Unit, None)
  }

  /// `Variant::discriminant(e)`: `= e`; nothing else changes.
  function VariantDiscriminant(v: Variant, e: Expr): (r: Variant)
    ensures r.discriminant == Some(e)
    ensures r.(discriminant := v.discriminant) == v
  {
    v.(discriminant := Some(e))
  }

  /// `Variant::fields(f)`: replaces the field list; nothing else changes.
  function VariantFields(v: Variant, f: Fields): (r: Variant)
    ensures r.fields == f
    ensures r.(fields := v.fields) == v
  {
    v.(fields := f)
  }

  const VariantAttrs: Accessor<Variant, seq<Attribute>> :=
    Accessor((n: Variant) => n.attrs, (n: Variant, v) => n.(attrs := v))

  // ---- field lists -----------------------------------------------------------

  /// `fields_named(fields)`: `{ fields }` in order.
  function NewFieldsNamed(fields: seq<Field>): (r: FieldsNamed)
    ensures r.named == fields
  {
    FieldsNamed(fields)
  }

  /// `fields_unamed(fields)`: `( fields )` in order.
  function NewFieldsUnnamed(fields: seq<Field>): (r: FieldsUnnamed)
    ensures r.unnamed == fields
  {
    FieldsUnnamed(fields)
  }

  // ---- Field -----------------------------------------------------------------

  /// A field has a name exactly when it has the `:` that follows the name.
  predicate FieldWellFormed(f: Field) {
    f.ident.Some? <==> f.colonToken.Some?
  }

  /// `field(ty)`: an unnamed, inherited-visibility, non-`mut` field of type `ty`.
  function NewField(ty: Type): (f: Field)
    ensures f.ty == ty && f.attrs == []
    ensures f.vis == Inherited && f.mutability == FieldMutabilityNone
    ensures f.ident.None? && FieldWellFormed(f)
  {
    Field.Field([], Inherited, FieldMutabilityNone, None, None, ty)
  }

  /// `Field::ident(i)`: names the field and writes the `:` with it; nothing
  /// else changes.
  function FieldIdent(f: Field, ident: Ident): (r: Field)
    ensures r.ident == Some(ident) && r.colonToken.Some?
    ensures FieldWellFormed(r)
    ensures r.(ident := f.ident, colonToken := f.colonToken) == f
  {
    f.(ident := Some(ident), colonToken := Some(()))
  }

  const FieldAttrs: Accessor<Field, seq<Attribute>> :=
    Accessor((n: Field) => n.attrs, (n: Field, v) => n.(attrs := v))
  const FieldVis: Accessor<Field, Visibility> :=
    Accessor((n: Field) => n.vis, (n: Field, v) => n.(vis := v))

  /// Every accessor of this file reaches its own field, and the attribute and
  /// visibility modifiers of a field commute.
  lemma DataAccessorsLawful()
    ensures Lawful(VariantAttrs) && Lawful(FieldAttrs) && Lawful(FieldVis)
    ensures Independent(FieldAttrs, FieldVis)
  {
  }

  /// The attribute and visibility modifiers keep a field well formed, so every
  /// field built by this crate pairs its name with its `:`.
  lemma FieldModifiersKeepWellFormed(f: Field, attrs: seq<Attribute>, vis: Visibility, ident: Ident)
    requires FieldWellFormed(f)
    ensures FieldWellFormed(Replace(FieldAttrs, f, attrs))
    ensures FieldWellFormed(Replace(FieldVis, f, vis))
    ensures FieldIdent(FieldIdent(f, ident), ident) == FieldIdent(f, ident)
  {
  }
}
