/// Blocks, statements and `let` bindings (src/stmt.rs).
module StmtBuilders {
  import opened Options
  import opened Syntax
  import opened Macros

  /// What `impl IntoStmt` accepts.
  datatype StmtSource =
    | FromStmt(stmt: Stmt)
    | FromLocal(local: Local)
    | FromItem(item: Item)
    | FromExpr(expr: Expr)
    | FromStmtMacro(mac: StmtMacro)

  /// The most specific source a statement could have been converted from: an
  /// expression statement with a `;` can only come from a `Stmt` itself.
  function SourceOfStmt(st: Stmt): (s: StmtSource)
    ensures st.Expr? && st.semi.Some? <==> s.FromStmt?
  {
    match st
    case Local(local) => FromLocal(local)
    case Item(item) => FromItem(item)
    case Expr(expr, semi) => if semi.None? then FromExpr(expr) else FromStmt(st)
    case Macro(mac) => FromStmtMacro(mac)
  }

  /// `into_stmt`: a statement is kept, the others are wrapped in their own
  /// variant, and the wrapping is undone by `SourceOfStmt`; an expression
  /// becomes a statement without a trailing `;`.
  function IntoStmt(s: StmtSource): (r: Stmt)
    ensures s.FromStmt? ==> r == s.stmt
    ensures !s.FromStmt? ==> SourceOfStmt(r) == s
    ensures s.FromExpr? ==> r.Expr? && r.semi.None?
  {
    match s
    case FromStmt(stmt) => stmt
    case FromLocal(local) => Stmt.Local(local)
    case FromItem(item) => Stmt.Item(item)
    case FromExpr(expr) => Stmt.Expr(expr, None)
    case FromStmtMacro(mac) => Stmt.Macro(mac)
  }

  /// Round trip the other way: converting the source of a statement gives the
  /// statement back, so every statement is reached.
  lemma IntoStmtRoundTrip(st: Stmt)
    ensures IntoStmt(SourceOfStmt(st)) == st
  {
  }

  /// `block(stmts)`: `{ stmts }`, each converted, in order.
  function NewBlock(stmts: seq<StmtSource>): (b: Block)
    ensures |b.stmts| == |stmts|
    ensures forall i :: 0 <= i < |stmts| ==> b.stmts[i] == IntoStmt(stmts[i])
  {
    Block.Block(Collect(IntoStmt, stmts))
  }

  /// Building a block from two runs of statements is building it from each
  /// run and joining the statement lists.
  lemma NewBlockAppend(xs: seq<StmtSource>, ys: seq<StmtSource>)
    ensures NewBlock(xs + ys).stmts == NewBlock(xs).stmts + NewBlock(ys).stmts
  {
    CollectAppend(IntoStmt, xs, ys);
  }

  // ---- let -------------------------------------------------------------------

  /// `local(pat)`: `let pat;` without attributes or initialiser.
  function NewLocal(pat: Pat): (l: Local)
    ensures l.pat == pat && l.attrs == [] && l.init.None?
  {
    Local.Local([], pat, None)
  }

  /// `Local::init(i)`: `let pat = ..;`; nothing else changes.
  function LocalWithInit(l: Local, init: LocalInit): (r: Local)
    ensures r.init == Some(init)
    ensures r.(init := l.init) == l
  {
    l.(init := Some(init))
  }

  const LocalAttrs: Accessor<Local, seq<Attribute>> :=
    Accessor((n: Local) => n.attrs, (n: Local, v) => n.(attrs := v))

  /// `local_init(expr)`: `= expr` without an `else` branch.
  function NewLocalInit(expr: Expr): (i: LocalInit)
    ensures i.expr == expr && i.diverge.None?
  {
    LocalInit(expr, None)
  }

  /// `LocalInit::diverge(e)`: `= expr else e`; the initialiser is kept.
  function LocalInitDiverge(i: LocalInit, e: Expr): (r: LocalInit)
    ensures r.diverge == Some(e) && r.expr == i.expr
  {
    i.(diverge := Some(e))
  }

  /// `stmt_macro(mac)`: a macro in statement position, without attributes and
  /// without a trailing `;`.
  function NewStmtMacro(mac: Macro): (s: StmtMacro)
    ensures s.mac == mac && s.attrs == [] && s.semiToken.None?
  {
    StmtMacro([], mac, None)
  }

  const StmtMacroAttrs: Accessor<StmtMacro, seq<Attribute>> :=
    Accessor((n: StmtMacro) => n.attrs, (n: StmtMacro, v) => n.(attrs := v))

  /// Every accessor of this file reaches its own field; the attribute list of a
  /// `let` is independent of its initialiser.
  lemma StmtAccessorsLawful()
    ensures Lawful(LocalAttrs) && Lawful(StmtMacroAttrs)
    ensures forall l: Local, xs, i :: LocalWithInit(Replace(LocalAttrs, l, xs), i)
                                     == Replace(LocalAttrs, LocalWithInit(l, i), xs)
  {
  }
}
