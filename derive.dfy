/// Builders for the input of a derive macro (src/derive.rs).
///
/// `IntoData` maps `Data` to itself and `DataStruct`, `DataEnum`, `DataUnion`
/// to `Data.Struct`, `Data.Enum`, `Data.Union`: the constructors of `Data`.
module DeriveBuilders {
  import opened Options
  import opened Syntax
  import opened Macros

  /// `derive_input(ident, data)`: inherited visibility, no attributes, no
  /// generics.
  function NewDeriveInput(ident: Ident, data: Data): (d: DeriveInput)
    ensures d.ident == ident && d.data == data
    ensures d.attrs == [] && d.vis == Inherited && d.generics == NoGenerics
  {
    DeriveInput([], Inherited, ident, NoGenerics, data)
  }

  /// `DeriveInput::generics(g)`: replaces the generics; nothing else changes.
  function DeriveInputGenerics(d: DeriveInput, g: Generics): (r: DeriveInput)
    ensures r.generics == g
    ensures r.(generics := d.generics) == d
  {
    d.(generics := g)
  }

  const DeriveInputAttrs: Accessor<DeriveInput, seq<Attribute>> :=
    Accessor((n: DeriveInput) => n.attrs, (n: DeriveInput, v) => n.(attrs := v))
  const DeriveInputVis: Accessor<DeriveInput, Visibility> :=
    Accessor((n: DeriveInput) => n.vis, (n: DeriveInput, v) => n.(vis := v))

  lemma DeriveAccessorsLawful()
    ensures Lawful(DeriveInputAttrs) && Lawful(DeriveInputVis)
    ensures Independent(DeriveInputAttrs, DeriveInputVis)
  {
  }

  /// `data_struct(fields)`: a struct body without a trailing `;`.
  function NewDataStruct(fields: Fields): (r: DataStruct)
    ensures r.fields == fields && r.semiToken.None?
  {
    DataStruct(fields, None)
  }

  /// `data_enum(variants)`: the variants in order.
  function NewDataEnum(variants: seq<Variant>): (r: DataEnum)
    ensures r.variants == variants
  {
    DataEnum(variants)
  }

  /// `data_union(fields)`: a union body, which is always a named field list.
  function NewDataUnion(fields: FieldsNamed): (r: DataUnion)
    ensures r.fields == fields
  {
    DataUnion(fields)
  }
}
