/// The builder for a whole source file (src/file.rs).
module FileBuilders {
  import opened Options
  import opened Syntax
  import opened Macros

  /// `file(items)`: the items in order, without a `#!` line or inner
  /// attributes.
  function NewFile(items: seq<Item>): (f: File)
    ensures f.items == items && f.shebang.None? && f.attrs == []
  {
    File(None, [], items)
  }

  /// `File::shebang(s)`: the `#!` line `s`; the items are kept.
  function FileShebang(f: File, shebang: string): (r: File)
    ensures r.shebang == Some(shebang)
    ensures r.(shebang := f.shebang) == f
  {
    f.(shebang := Some(shebang))
  }

  const FileAttrs: Accessor<File, seq<Attribute>> :=
    Accessor((n: File) => n.attrs, (n: File, v) => n.(attrs := v))

  /// The `#!` line and the attributes of a file are independent of each other
  /// and of the items: a file built by `file`, `shebang` and `attr` keeps its
  /// items in order, whatever order the modifiers come in.
  lemma FileModifiersKeepItems(items: seq<Item>, shebang: string, attrs: seq<Attribute>)
    ensures Lawful(FileAttrs)
    ensures var f := NewFile(items);
      && PushAll(FileAttrs, FileShebang(f, shebang), attrs) == FileShebang(PushAll(FileAttrs, f, attrs), shebang)
      && PushAll(FileAttrs, FileShebang(f, shebang), attrs).items == items
      && PushAll(FileAttrs, FileShebang(f, shebang), attrs).attrs == attrs
  {
    var f := NewFile(items);
    PushChainFromEmpty(FileAttrs, FileShebang(f, shebang), attrs);
    PushChainFromEmpty(FileAttrs, f, attrs);
  }
}
