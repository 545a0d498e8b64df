/// Binary and unary operators (src/op.rs).
///
/// Each `bin_op_*_variant()` and `un_op_*()` function returns the variant of
/// the same name: they are the constructors of `BinOp` and `UnOp`, and
/// `IntoBinOp`/`IntoUnOp` map an operator to itself.  What remains is the
/// table from punctuation tokens to operators.
module OpBuilders {
  import opened Syntax

  /// The punctuation tokens of syn's `token` module that convert into an
  /// operator.
  datatype Punct =
    | Plus | Minus | Star | Slash | Percent | AndAnd | OrOr
    | Caret | And | Or | Shl | Shr
    | EqEq | Lt | Le | Ne | Ge | Gt
    | PlusEq | MinusEq | StarEq | SlashEq | PercentEq
    | CaretEq | AndEq | OrEq | ShlEq | ShrEq
    | Not

  /// The tokens with an `IntoBinOp` implementation: all but `!`.
  predicate IsBinOpToken(t: Punct) {
    t != Punct.Not
  }

  /// The tokens with an `IntoUnOp` implementation.
  predicate IsUnOpToken(t: Punct) {
    t == Punct.Star || t == Punct.Not || t == Punct.Minus
  }

  /// The spelling of each binary operator, read off syn's grammar (an
  /// independent reference for the table below).
  function TokenOfBinOp(op: BinOp): (t: Punct)
    ensures IsBinOpToken(t)
  {
    match op
    case Add => Punct.Plus
    case Sub => Punct.Minus
    case Mul => Punct.Star
    case Div => Punct.Slash
    case Rem => Punct.Percent
    case And => Punct.AndAnd
    case Or => Punct.OrOr
    case BitXor => Punct.Caret
    case BitAnd => Punct.And
    case BitOr => Punct.Or
    case Shl => Punct.Shl
    case Shr => Punct.Shr
    case Eq => Punct.EqEq
    case Lt => Punct.Lt
    case Le => Punct.Le
    case Ne => Punct.Ne
    case Ge => Punct.Ge
    case Gt => Punct.Gt
    case AddAssign => Punct.PlusEq
    case SubAssign => Punct.MinusEq
    case MulAssign => Punct.StarEq
    case DivAssign => Punct.SlashEq
    case RemAssign => Punct.PercentEq
    case BitXorAssign => Punct.CaretEq
    case BitAndAssign => Punct.AndEq
    case BitOrAssign => Punct.OrEq
    case ShlAssign => Punct.ShlEq
    case ShrAssign => Punct.ShrEq
  }

  /// `impl_bin_op!`: the operator a token converts into.  Every binary
  /// operator is reached, by exactly the token that spells it.
  function BinOpOfToken(t: Punct): (op: BinOp)
    requires IsBinOpToken(t)
    ensures TokenOfBinOp(op) == t
  {
    match t
    case Plus => BinOp.Add
    case Minus => BinOp.Sub
    case Star => BinOp.Mul
    case Slash => BinOp.Div
    case Percent => BinOp.Rem
    case AndAnd => BinOp.And
    case OrOr => BinOp.Or
    case Caret => BinOp.BitXor
    case And => BinOp.BitAnd
    case Or => BinOp.BitOr
    case Shl => BinOp.Shl
    case Shr => BinOp.Shr
    case EqEq => BinOp.Eq
    case Lt => BinOp.Lt
    case Le => BinOp.Le
    case Ne => BinOp.Ne
    case Ge => BinOp.Ge
    case Gt => BinOp.Gt
    case PlusEq => BinOp.AddAssign
    case MinusEq => BinOp.SubAssign
    case StarEq => BinOp.MulAssign
    case SlashEq => BinOp.DivAssign
    case PercentEq => BinOp.RemAssign
    case CaretEq => BinOp.BitXorAssign
    case AndEq => BinOp.BitAndAssign
    case OrEq => BinOp.BitOrAssign
    case ShlEq => BinOp.ShlAssign
    case ShrEq => BinOp.ShrAssign
  }

  /// The table is a bijection between the binary-operator tokens and `BinOp`:
  /// distinct tokens give distinct operators and every operator is reached.
  lemma BinOpTableBijective(s: Punct, t: Punct, op: BinOp)
    requires IsBinOpToken(s) && IsBinOpToken(t)
    ensures BinOpOfToken(s) == BinOpOfToken(t) ==> s == t
    ensures BinOpOfToken(TokenOfBinOp(op)) == op
  {
    var u := TokenOfBinOp(op);
    assert TokenOfBinOp(BinOpOfToken(u)) == u;
  }

  /// `&&` and `||` are the logical operators, `&` and `|` the bitwise ones.
  lemma LogicalAndBitwiseTokens()
    ensures BinOpOfToken(Punct.AndAnd) == BinOp.And && BinOpOfToken(Punct.And) == BinOp.BitAnd
    ensures BinOpOfToken(Punct.OrOr) == BinOp.Or && BinOpOfToken(Punct.Or) == BinOp.BitOr
  {
  }

  /// The spelling of each unary operator.
  function TokenOfUnOp(op: UnOp): (t: Punct)
    ensures IsUnOpToken(t)
  {
    match op
    case Deref => Punct.Star
    case Not => Punct.Not
    case Neg => Punct.Minus
  }

  /// `impl_un_op!`: `*` is `Deref`, `!` is `Not`, `-` is `Neg`.
  function UnOpOfToken(t: Punct): (op: UnOp)
    requires IsUnOpToken(t)
    ensures TokenOfUnOp(op) == t
  {
    match t
    case Star => UnOp.Deref
    case Not => UnOp.Not
    case Minus => UnOp.Neg
  }

  /// `*` and `-` are the only tokens with both a binary and a unary reading:
  /// multiplication or dereference, subtraction or negation.
  lemma SharedOperatorTokens(t: Punct)
    ensures IsBinOpToken(t) && IsUnOpToken(t) <==> t == Punct.Star || t == Punct.Minus
    ensures BinOpOfToken(Punct.Star) == BinOp.Mul && UnOpOfToken(Punct.Star) == UnOp.Deref
    ensures BinOpOfToken(Punct.Minus) == BinOp.Sub && UnOpOfToken(Punct.Minus) == UnOp.Neg
  {
  }
}
