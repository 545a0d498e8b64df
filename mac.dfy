/// Macro invocations and their delimiters (src/mac.rs).
///
/// `macro_delimiter_paren_variant()`, `macro_delimiter_brace_variant()` and
/// `macro_delimiter_bracket_variant()` are the constructors `Paren`, `Brace`
/// and `Bracket`, and `IntoMacroDelimiter` maps a delimiter to itself and each
/// delimiter token to the variant of the same name.
module MacBuilders {
  import opened Options
  import opened Syntax
  import opened PathBuilders

  /// `r#macro(path, tokens)`: `path!(tokens)`, delimited by parentheses.
  function NewMacro(path: PathSource, tokens: TokenStream): (m: Macro)
    ensures m.path == IntoPath(path) && m.tokens == tokens
    ensures m.delimiter == MacroDelimiter.Paren
  {
    Macro.Macro(IntoPath(path), MacroDelimiter.Paren, tokens)
  }

  /// A macro named by a single identifier keeps that name as its only path
  /// segment, and the tokens pass through untouched.
  lemma MacroNamedByIdent(name: string, tokens: TokenStream)
    ensures GetIdent(NewMacro(FromStr(name), tokens).path) == Some(Ident.Ident(name))
    ensures NewMacro(FromStr(name), tokens) == NewMacro(FromIdent(Ident.Ident(name)), tokens)
  {
  }
}
