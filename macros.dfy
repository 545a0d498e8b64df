/// The modifiers that the crate generates with `macro_rules!` for many node
/// types at once (src/macros.rs, and `generics_builder!`, `unsafety_builder!`
/// and `defaultness_builder!` in src/item.rs).  Each macro assumes that the node
/// has a field of a given name and rewrites only that field
/// (`Self { f: .., ..self }`, or a `push` onto it).  The model states that once:
/// an `Accessor` names one field of a node type, and every `xxx_builder!(Node)`
/// line of the crate becomes one accessor constant next to the node's other
/// builders.
module Macros {
  import opened Options
  import opened Syntax

  /// One field of a node: read it, or rebuild the node with a new value in it.
  datatype Accessor<!N, !F> = Accessor(get: N -> F, put: (N, F) -> N)

  /// The accessor reaches a field of its own: what is put is read back, putting
  /// back what is read changes nothing, and the last put wins.
  ghost predicate Lawful<N(!new), F(!new)>(acc: Accessor<N, F>) {
    && (forall n, v :: acc.get(acc.put(n, v)) == v)
    && (forall n :: acc.put(n, acc.get(n)) == n)
    && (forall n, v, w :: acc.put(acc.put(n, v), w) == acc.put(n, w))
  }

  /// Two accessors reach different fields: writing one leaves the other as it
  /// was, and writes to the two commute.
  ghost predicate Independent<N(!new), F(!new), G(!new)>(f: Accessor<N, F>, g: Accessor<N, G>) {
    && (forall n, v :: g.get(f.put(n, v)) == g.get(n))
    && (forall n, w :: f.get(g.put(n, w)) == f.get(n))
    && (forall n, v, w :: g.put(f.put(n, v), w) == f.put(g.put(n, w), v))
  }

  // ---- list fields: attr / attrs, and the item lists of src/item.rs ----------

  /// `attr(a)` (and `variant(v)`, `item(i)`): takes the node by value, pushes
  /// one element at the end of the list and hands the node back.
  function Push<N, T>(acc: Accessor<N, seq<T>>, n: N, x: T): N {
    acc.put(n, acc.get(n) + [x])
  }

  /// A chain `.attr(xs[0]).attr(xs[1])...` of pushes.
  function PushAll<N, T>(acc: Accessor<N, seq<T>>, n: N, xs: seq<T>): N
    decreases |xs|
  {
    if xs == [] then n else PushAll(acc, Push(acc, n, xs[0]), xs[1..])
  }

  /// `attrs(xs)`, `vis(v)`, `generics(g)` and the list setters: replace the
  /// whole field.
  function Replace<N, F>(acc: Accessor<N, F>, n: N, v: F): N {
    acc.put(n, v)
  }

  /// One push appends its element after the ones already there.
  lemma PushAppends<N(!new), T(!new)>(acc: Accessor<N, seq<T>>, n: N, x: T)
    requires Lawful(acc)
    ensures acc.get(Push(acc, n, x)) == acc.get(n) + [x]
    ensures |acc.get(Push(acc, n, x))| == |acc.get(n)| + 1
  {
  }

  /// A replacement is read back as given, the last one wins, and it discards
  /// whatever an earlier push added.
  lemma ReplaceLaws<N(!new), F(!new)>(acc: Accessor<N, F>, n: N, v: F, w: F)
    requires Lawful(acc)
    ensures acc.get(Replace(acc, n, v)) == v
    ensures Replace(acc, Replace(acc, n, v), w) == Replace(acc, n, w)
  {
  }

  lemma ReplaceDiscardsPush<N(!new), T(!new)>(acc: Accessor<N, seq<T>>, n: N, x: T, xs: seq<T>)
    requires Lawful(acc)
    ensures Replace(acc, Push(acc, n, x), xs) == Replace(acc, n, xs)
  {
  }

  /// A chain of pushes appends its elements in call order.
  lemma {:induction false} PushChainAppends<N(!new), T(!new)>(acc: Accessor<N, seq<T>>, n: N, xs: seq<T>)
    requires Lawful(acc)
    ensures acc.get(PushAll(acc, n, xs)) == acc.get(n) + xs
    decreases |xs|
  {
    if xs != [] {
      PushChainAppends(acc, Push(acc, n, xs[0]), xs[1..]);
      assert acc.get(n) + [xs[0]] + xs[1..] == acc.get(n) + xs;
    }
  }

  /// From an empty list, pushing `x1 .. xn` one by one builds the same node as
  /// replacing the list with `[x1, .., xn]`.
  lemma PushChainFromEmpty<N(!new), T(!new)>(acc: Accessor<N, seq<T>>, n: N, xs: seq<T>)
    requires Lawful(acc)
    requires acc.get(n) == []
    ensures acc.get(PushAll(acc, n, xs)) == xs
    ensures PushAll(acc, n, xs) == Replace(acc, n, xs)
  {
    PushChainAppends(acc, n, xs);
    PushChainKeepsRest(acc, n, xs);
    assert acc.get(n) + xs == xs;
  }

  /// Pushing only ever writes the list: the node after a chain of pushes is
  /// the original node with the longer list put in.
  lemma {:induction false} PushChainKeepsRest<N(!new), T(!new)>(acc: Accessor<N, seq<T>>, n: N, xs: seq<T>)
    requires Lawful(acc)
    ensures PushAll(acc, n, xs) == acc.put(n, acc.get(n) + xs)
    decreases |xs|
  {
    if xs == [] {
      assert acc.get(n) + xs == acc.get(n);
    } else {
      var m := Push(acc, n, xs[0]);
      PushChainKeepsRest(acc, m, xs[1..]);
      assert acc.get(m) + xs[1..] == acc.get(n) + xs;
    }
  }

  /// A later replacement discards whatever a chain of pushes added.
  lemma {:induction false} ReplaceAfterPushChain<N(!new), T(!new)>(
    acc: Accessor<N, seq<T>>, n: N, xs: seq<T>, ys: seq<T>)
    requires Lawful(acc)
    ensures Replace(acc, PushAll(acc, n, xs), ys) == Replace(acc, n, ys)
    decreases |xs|
  {
    if xs != [] {
      ReplaceAfterPushChain(acc, Push(acc, n, xs[0]), xs[1..], ys);
    }
  }

  // ---- token flags: mutability_builder!, unsafety_builder!, defaultness_builder!

  /// `mutability(b)`, `unsafety(b)`, `defaultness(b)`: the token is present
  /// exactly when `b` holds.
  function SetFlag<N>(acc: Accessor<N, Marker>, n: N, flag: bool): N {
    acc.put(n, MarkerIf(flag))
  }

  lemma FlagLaws<N(!new)>(acc: Accessor<N, Marker>, n: N, b: bool, c: bool)
    requires Lawful(acc)
    ensures acc.get(SetFlag(acc, n, b)).Some? <==> b
    ensures SetFlag(acc, SetFlag(acc, n, b), b) == SetFlag(acc, n, b)
    ensures SetFlag(acc, SetFlag(acc, n, b), c) == SetFlag(acc, n, c)
  {
  }

  /// Setting a flag to the value it already has changes nothing.
  lemma FlagUnchanged<N(!new)>(acc: Accessor<N, Marker>, n: N)
    requires Lawful(acc)
    ensures SetFlag(acc, n, acc.get(n).Some?) == n
  {
    MarkerIsPresence(acc.get(n));
  }

  // ---- optional parts: qself_builder!, label_builder!, path generics_builder!

  /// `qself(q)`, `label(l)`, and `generics(g)` on an associated item: the
  /// optional part is present and holds the given value.
  function SetSome<N, F>(acc: Accessor<N, Option<F>>, n: N, v: F): N {
    acc.put(n, Some(v))
  }

  lemma SomeLaws<N(!new), F(!new)>(acc: Accessor<N, Option<F>>, n: N, v: F, w: F)
    requires Lawful(acc)
    ensures acc.get(SetSome(acc, n, v)) == Some(v)
    ensures SetSome(acc, SetSome(acc, n, v), w) == SetSome(acc, n, w)
  {
  }

  // ---- output_builder! -----------------------------------------------------

  /// `output(t)`: the explicit `-> t` return type.
  function SetOutput<N>(acc: Accessor<N, ReturnType>, n: N, ty: Type): N {
    acc.put(n, ReturnType.Type(ty))
  }

  lemma OutputLaws<N(!new)>(acc: Accessor<N, ReturnType>, n: N, ty: Type, ty': Type)
    requires Lawful(acc)
    ensures acc.get(SetOutput(acc, n, ty)) != ReturnType.Default
    ensures acc.get(SetOutput(acc, n, ty)) == ReturnType.Type(ty)
    ensures SetOutput(acc, SetOutput(acc, n, ty), ty') == SetOutput(acc, n, ty')
  {
  }

  // ---- all of them ---------------------------------------------------------

  /// Modifiers of two different fields do not see each other and may be
  /// applied in either order.
  lemma ModifiersCommute<N(!new), F(!new), G(!new)>(f: Accessor<N, F>, g: Accessor<N, G>, n: N, v: F, w: G)
    requires Independent(f, g)
    ensures g.get(f.put(n, v)) == g.get(n)
    ensures f.get(g.put(n, w)) == f.get(n)
    ensures g.put(f.put(n, v), w) == f.put(g.put(n, w), v)
  {
  }

  /// In particular a chain of pushes leaves every other field alone.
  lemma {:induction false} PushChainKeepsOthers<N(!new), T(!new), G(!new)>(
    acc: Accessor<N, seq<T>>, other: Accessor<N, G>, n: N, xs: seq<T>)
    requires Independent(acc, other)
    ensures other.get(PushAll(acc, n, xs)) == other.get(n)
    decreases |xs|
  {
    if xs != [] {
      PushChainKeepsOthers(acc, other, Push(acc, n, xs[0]), xs[1..]);
    }
  }
}
