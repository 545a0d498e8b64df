/// Values shared by every module: the optional value that Rust spells
/// `Option`, and the element-wise conversion that the builders perform with
/// `into_iter().map(..).collect()`.
module Options {
  datatype Option<+T> = None | Some(value: T)

  /// A token that is either written or left out.  syn keeps such tokens as
  /// `Option<Token![..]>`; the token itself only carries a span, so the
  /// model keeps only its presence.
  type Marker = Option<()>

  /// `flag.then(Default::default)`: the token is present exactly when the
  /// flag is set.
  function MarkerIf(flag: bool): (m: Marker)
    ensures m.Some? <==> flag
  {
    if flag then Some(()) else None
  }

  /// A marker carries nothing but its presence, so it is rebuilt from it.
  lemma MarkerIsPresence(m: Marker)
    ensures m == MarkerIf(m.Some?)
  {
    if m.Some? {
      match m.value { case () => }
    }
  }

  /// `items.into_iter().map(convert).collect()`: converts every element, in
  /// order, and keeps the length.
  function Collect<A, B>(convert: A -> B, items: seq<A>): (r: seq<B>)
    ensures |r| == |items|
    ensures forall i :: 0 <= i < |items| ==> r[i] == convert(items[i])
  {
    if items == [] then [] else [convert(items[0])] + Collect(convert, items[1..])
  }

  /// Collecting a concatenation is concatenating what was collected.
  lemma {:induction false} CollectAppend<A, B>(convert: A -> B, xs: seq<A>, ys: seq<A>)
    ensures Collect(convert, xs + ys) == Collect(convert, xs) + Collect(convert, ys)
  {
    var l, r := Collect(convert, xs + ys), Collect(convert, xs) + Collect(convert, ys);
    assert |l| == |r|;
    forall i | 0 <= i < |l| ensures l[i] == r[i] {
      if i < |xs| {
        assert (xs + ys)[i] == xs[i];
      } else {
        assert (xs + ys)[i] == ys[i - |xs|];
      }
    }
  }
}
