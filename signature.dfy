/// Builders for function signatures and their arguments (src/item.rs,
/// `signature`, `receiver`, `variadic`).
///
/// `IntoFnArg` maps an `FnArg` to itself, a `Receiver` to `FnArg.Receiver` and
/// a `PatType` to `FnArg.Typed`: the constructors of `FnArg`.
/// `static_mutability_mut_variant()` is the constructor `StaticMutability.Mut`.
module SignatureBuilders {
  import opened Options
  import opened Syntax
  import opened Macros
  import opened PathBuilders

  // ---- Signature -------------------------------------------------------------

  /// A plain signature: not `const`, `async` or `unsafe`, no `extern`, no
  /// generics, no `...`, and no return type.
  predicate IsPlainSignature(s: Signature) {
    && s.constness.None? && s.asyncness.None? && s.unsafety.None? && s.abi.None?
    && s.generics == NoGenerics && s.variadic.None? && s.output == ReturnType.Default
  }

  /// `signature(ident, inputs)`: `fn ident(inputs)` with the inputs in order.
  function NewSignature(ident: Ident, inputs: seq<FnArg>): (s: Signature)
    ensures s.ident == ident && s.inputs == inputs
    ensures IsPlainSignature(s)
  {
    Signature(None, None, None, None, ident, NoGenerics, inputs, None, ReturnType.Default)
  }

  /// `Signature::constness(b)`: `const fn` exactly when `b` holds.
  function SignatureConstness(s: Signature, b: bool): (r: Signature)
    ensures r.constness.Some? <==> b
    ensures r.(constness := s.constness) == s
  {
    s.(constness := MarkerIf(b))
  }

  /// `Signature::asyncness(b)`: `async fn` exactly when `b` holds.
  function SignatureAsyncness(s: Signature, b: bool): (r: Signature)
    ensures r.asyncness.Some? <==> b
    ensures r.(asyncness := s.asyncness) == s
  {
    s.(asyncness := MarkerIf(b))
  }

  /// `Signature::abi(abi)`: `extern "abi" fn`.
  function SignatureAbi(s: Signature, abi: Abi): (r: Signature)
    ensures r.abi == Some(abi)
    ensures r.(abi := s.abi) == s
  {
    s.(abi := Some(abi))
  }

  /// `Signature::variadic(v)`: `fn ident(inputs, ...)`; the inputs are kept.
  function SignatureVariadic(s: Signature, variadic: Variadic): (r: Signature)
    ensures r.variadic == Some(variadic)
    ensures r.(variadic := s.variadic) == s
  {
    s.(variadic := Some(variadic))
  }

  const SignatureUnsafety: Accessor<Signature, Marker> :=
    Accessor((n: Signature) => n.unsafety, (n: Signature, v) => n.(unsafety := v))
  const SignatureGenerics: Accessor<Signature, Generics> :=
    Accessor((n: Signature) => n.generics, (n: Signature, v) => n.(generics := v))
  const SignatureOutput: Accessor<Signature, ReturnType> :=
    Accessor((n: Signature) => n.output, (n: Signature, v) => n.(output := v))

  /// Switching the `const`, `async` and `unsafe` qualifiers of a plain
  /// signature on and off again gives back the signature, and the name and
  /// the inputs survive the setters.
  lemma SignatureQualifiersUndo(b: bool, c: bool, d: bool)
    ensures forall s: Signature :: IsPlainSignature(s) ==>
      var r := SetFlag(SignatureUnsafety, SignatureAsyncness(SignatureConstness(s, b), c), d);
      && r.ident == s.ident && r.inputs == s.inputs
      && SetFlag(SignatureUnsafety, SignatureAsyncness(SignatureConstness(r, false), false), false) == s
  {
  }

  /// The setters of a signature write different fields: applied to the same
  /// signature in either order they give the same result.
  lemma SignatureSettersCommute(s: Signature, b: bool, c: bool, abi: Abi, v: Variadic, ty: Type)
    ensures SignatureAsyncness(SignatureConstness(s, b), c) == SignatureConstness(SignatureAsyncness(s, c), b)
    ensures SignatureAbi(SetFlag(SignatureUnsafety, s, b), abi) == SetFlag(SignatureUnsafety, SignatureAbi(s, abi), b)
    ensures SetOutput(SignatureOutput, SignatureVariadic(s, v), ty)
            == SignatureVariadic(SetOutput(SignatureOutput, s, ty), v)
  {
  }

  // ---- Receiver --------------------------------------------------------------

  /// The path type `Self`.
  const SelfType: Type := Type.Path(TypePath(None, PathFromIdent(Ident.Ident("Self"))))

  /// `receiver()`: `self: Self`, by value and not `mut`, with the `:` and the
  /// type written out.
  function NewReceiver(): (r: Receiver)
    ensures r.reference.None? && r.mutability.None?
    ensures r.colonToken.Some? && r.ty == SelfType && r.attrs == []
  {
    Receiver.Receiver([], None, None, Some(()), SelfType)
  }

  /// `Receiver::reference(b)`: `&self` (without a lifetime) when `b` holds,
  /// `self` otherwise; a lifetime set earlier is dropped either way.
  function ReceiverReference(r: Receiver, b: bool): (s: Receiver)
    ensures s.reference.Some? <==> b
    ensures b ==> s.reference == Some(None)
    ensures s.(reference := r.reference) == r
  {
    r.(reference := if b then Some(None) else None)
  }

  /// `Receiver::lifetime(l)`: `&'l self`; this also turns a by-value receiver
  /// into a reference.
  function ReceiverLifetime(r: Receiver, lifetime: Lifetime): (s: Receiver)
    ensures s.reference == Some(Some(lifetime))
    ensures s.(reference := r.reference) == r
  {
    r.(reference := Some(Some(lifetime)))
  }

  /// `Receiver::mutability(b)`: `mut self` / `&mut self` exactly when `b` holds.
  function ReceiverMutability(r: Receiver, b: bool): (s: Receiver)
    ensures s.mutability.Some? <==> b
    ensures s.(mutability := r.mutability) == r
  {
    r.(mutability := MarkerIf(b))
  }

  /// `Receiver::ty(t)`: `self: t`; the `:` is written as well.
  function ReceiverTy(r: Receiver, ty: Type): (s: Receiver)
    ensures s.ty == ty && s.colonToken.Some?
    ensures s.(ty := r.ty, colonToken := r.colonToken) == r
  {
    r.(colonToken := Some(()), ty := ty)
  }

  const ReceiverAttrs: Accessor<Receiver, seq<Attribute>> :=
    Accessor((n: Receiver) => n.attrs, (n: Receiver, v) => n.(attrs := v))

  /// `reference` and `lifetime` write the same field, so the later call
  /// decides: `lifetime` after `reference(b)` gives `&'l self` whatever `b`,
  /// and `reference(true)` after `lifetime` forgets the lifetime.
  lemma ReceiverReferenceOrder(r: Receiver, b: bool, lifetime: Lifetime)
    ensures ReceiverLifetime(ReceiverReference(r, b), lifetime) == ReceiverLifetime(r, lifetime)
    ensures ReceiverReference(ReceiverLifetime(r, lifetime), b) == ReceiverReference(r, b)
    ensures ReceiverReference(ReceiverLifetime(r, lifetime), true).reference == Some(None)
  {
  }

  /// The receiver builders keep every receiver a `self` of some type with its
  /// `:`, and the modifiers of different fields commute.
  lemma ReceiverBuildersKeepColon(r: Receiver, b: bool, m: bool, lifetime: Lifetime, ty: Type)
    requires r.colonToken.Some?
    ensures ReceiverMutability(ReceiverReference(r, b), m).colonToken.Some?
    ensures ReceiverLifetime(ReceiverTy(r, ty), lifetime).colonToken.Some?
    ensures ReceiverMutability(ReceiverLifetime(r, lifetime), m) == ReceiverLifetime(ReceiverMutability(r, m), lifetime)
    ensures ReceiverTy(ReceiverMutability(r, m), ty) == ReceiverMutability(ReceiverTy(r, ty), m)
  {
  }

  // ---- Variadic --------------------------------------------------------------

  /// `variadic()`: a bare `...` without a pattern, attributes or trailing `,`.
  function NewVariadic(): (v: Variadic)
    ensures v.pat.None? && v.attrs == [] && v.comma.None?
  {
    Variadic([], None, None)
  }

  /// `Variadic::pat(p)`: `p: ...`.
  function VariadicPat(v: Variadic, pat: Pat): (r: Variadic)
    ensures r.pat == Some(pat)
    ensures r.(pat := v.pat) == v
  {
    v.(pat := Some(pat))
  }

  const VariadicAttrs: Accessor<Variadic, seq<Attribute>> :=
    Accessor((n: Variadic) => n.attrs, (n: Variadic, v) => n.(attrs := v))

  lemma SignatureAccessorsLawful()
    ensures Lawful(SignatureUnsafety) && Lawful(SignatureGenerics) && Lawful(SignatureOutput)
    ensures Lawful(ReceiverAttrs) && Lawful(VariadicAttrs)
    ensures Independent(SignatureUnsafety, SignatureOutput) && Independent(SignatureGenerics, SignatureOutput)
  {
  }
}
