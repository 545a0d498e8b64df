/// Visibility builders (src/restriction.rs).
///
/// `IntoVisibility` maps a `Visibility` to itself, `pub` to `Public` and a
/// `VisRestricted` to `Restricted`; with the `pub` token reduced to its
/// presence these conversions are the constructors of `Visibility`
/// (`visibility_public_variant()` is `Public`, `field_mutability_none_variant()`
/// is `FieldMutabilityNone`).
module RestrictionBuilders {
  import opened Options
  import opened Syntax
  import opened PathBuilders

  /// The names that `pub(..)` accepts without `in`.
  const RestrictedCrateIdents: seq<string> := ["self", "super", "crate"]

  /// The path is one bare identifier other than `self`, `super` and `crate`:
  /// no leading `::`, a single segment, no generic arguments.
  predicate IsCustomPath(p: Path) {
    && p.leadingColon.None?
    && |p.segments| == 1
    && p.segments[0].arguments.NoArguments?
    && p.segments[0].ident.name !in RestrictedCrateIdents
  }

  /// `vis_restricted(path)`: `pub(path)`, with `in` written exactly when the
  /// path is a custom one-identifier path.  The path is stored unchanged.
  function NewVisRestricted(path: PathSource): (r: VisRestricted)
    ensures r.path == IntoPath(path)
    ensures r.inToken.Some? <==> IsCustomPath(IntoPath(path))
  {
    var p := IntoPath(path);
    var customPath := GetIdent(p).Some? && GetIdent(p).value.name !in RestrictedCrateIdents;
    VisRestricted(MarkerIf(customPath), p)
  }

  /// A path of two or more segments, or one with a leading `::`, gets no `in`.
  lemma VisRestrictedLongPath(p: Path)
    requires |p.segments| > 1 || p.leadingColon.Some?
    ensures NewVisRestricted(FromPath(p)).inToken.None?
  {
  }

  /// The names `self`, `super` and `crate` get no `in`; any other name does.
  lemma VisRestrictedName(name: string)
    ensures NewVisRestricted(FromStr(name)).inToken.Some? <==> name !in RestrictedCrateIdents
    ensures NewVisRestricted(FromStr(name)).path == PathFromIdent(Ident.Ident(name))
  {
  }

  // ---- the intended classification ------------------------------------------

  /// Rust accepts `pub(self)`, `pub(super)` and `pub(crate)` without `in`, and
  /// requires `pub(in path)` for every other path.
  predicate NeedsIn(p: Path) {
    !(GetIdent(p).Some? && GetIdent(p).value.name in RestrictedCrateIdents)
  }

  /// `pub(path)` with `in` written for every path except the three bare
  /// keywords.
  function VisRestrictedIntended(path: PathSource): (r: VisRestricted)
    ensures r.path == IntoPath(path)
    ensures r.inToken.Some? <==> NeedsIn(IntoPath(path))
  {
    var p := IntoPath(path);
    VisRestricted(MarkerIf(NeedsIn(p)), p)
  }

  /// The crate's classification and the intended one agree on every path made
  /// of a single bare identifier.
  lemma VisRestrictedAgreesOnIdents(path: PathSource)
    requires GetIdent(IntoPath(path)).Some?
    ensures NewVisRestricted(path) == VisRestrictedIntended(path)
  {
  }

  /// The two differ on `a::b`: the crate builds `pub(a::b)`, which is not valid
  /// Rust, where `pub(in a::b)` is meant.
  lemma VisRestrictedMissesIn()
    ensures var p := NewPath([NewPathSegment(Ident.Ident("a")), NewPathSegment(Ident.Ident("b"))]);
      && NewVisRestricted(FromPath(p)).inToken.None?
      && VisRestrictedIntended(FromPath(p)).inToken.Some?
  {
  }
}
