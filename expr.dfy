/// Builders for expressions (src/expr.rs).
///
/// `IntoExpr` maps an `Expr` to itself and each `ExprX` record to the variant
/// `Expr.X` (a token stream to `Expr.Verbatim`): the constructors of `Expr`.
/// `IntoRangeLimits` maps `RangeLimits` to itself, `..` to `HalfOpen` and `..=`
/// to `Closed`, and `range_limits_half_open_variant()` and
/// `range_limits_closed_variant()` are those two constructors.  Every
/// constructor below starts with an empty attribute list.
module ExprBuilders {
  import opened Options
  import opened Syntax
  import opened Macros
  import opened PathBuilders

  // ---- operands and operators ------------------------------------------------

  /// `expr_array(elems)`: `[elems]` in order.
  function NewExprArray(elems: seq<Expr>): (e: ExprArray)
    ensures e.elems == elems && e.attrs == []
  {
    ExprArray([], elems)
  }

  /// `expr_assign(left, right)`: `left = right`.
  function NewExprAssign(left: Expr, right: Expr): (e: ExprAssign)
    ensures e.left == left && e.right == right && e.attrs == []
  {
    ExprAssign([], left, right)
  }

  /// `expr_await(base)`: `base.await`.
  function NewExprAwait(base: Expr): (e: ExprAwait)
    ensures e.base == base && e.attrs == []
  {
    ExprAwait([], base)
  }

  /// `expr_binary(left, op, right)`: `left op right`.
  function NewExprBinary(left: Expr, op: BinOp, right: Expr): (e: ExprBinary)
    ensures e.left == left && e.op == op && e.right == right && e.attrs == []
  {
    ExprBinary([], left, op, right)
  }

  /// `expr_unary(op, expr)`: `op expr`.
  function NewExprUnary(op: UnOp, expr: Expr): (e: ExprUnary)
    ensures e.op == op && e.expr == expr && e.attrs == []
  {
    ExprUnary([], op, expr)
  }

  /// `expr_call(func, args)`: `func(args)` with the arguments in order.
  function NewExprCall(func: Expr, args: seq<Expr>): (e: ExprCall)
    ensures e.func == func && e.args == args && e.attrs == []
  {
    ExprCall([], func, args)
  }

  /// `expr_cast(expr, ty)`: `expr as ty`.
  function NewExprCast(expr: Expr, ty: Type): (e: ExprCast)
    ensures e.expr == expr && e.ty == ty && e.attrs == []
  {
    ExprCast([], expr, ty)
  }

  /// `expr_field(base, member)`: `base.member`.
  function NewExprField(base: Expr, member: Member): (e: ExprField)
    ensures e.base == base && e.member == member && e.attrs == []
  {
    ExprField([], base, member)
  }

  /// `expr_group(expr)`: an invisible group around `expr`.
  function NewExprGroup(expr: Expr): (e: ExprGroup)
    ensures e.expr == expr && e.attrs == []
  {
    ExprGroup([], expr)
  }

  /// `expr_index(expr, index)`: `expr[index]`.
  function NewExprIndex(expr: Expr, index: Expr): (e: ExprIndex)
    ensures e.expr == expr && e.index == index && e.attrs == []
  {
    ExprIndex([], expr, index)
  }

  /// `expr_infer()`: `_` without attributes.
  function NewExprInfer(): (e: ExprInfer)
    ensures e.attrs == []
  {
    ExprInfer([])
  }

  /// `expr_let(pat, expr)`: `let pat = expr` in a condition.
  function NewExprLet(pat: Pat, expr: Expr): (e: ExprLet)
    ensures e.pat == pat && e.expr == expr && e.attrs == []
  {
    ExprLet([], pat, expr)
  }

  /// `expr_lit(lit)`: a literal.
  function NewExprLit(lit: Lit): (e: ExprLit)
    ensures e.lit == lit && e.attrs == []
  {
    ExprLit([], lit)
  }

  /// `expr_macro(mac)`: a macro in expression position.
  function NewExprMacro(mac: Macro): (e: ExprMacro)
    ensures e.mac == mac && e.attrs == []
  {
    ExprMacro([], mac)
  }

  /// `expr_paren(expr)`: `(expr)`.
  function NewExprParen(expr: Expr): (e: ExprParen)
    ensures e.expr == expr && e.attrs == []
  {
    ExprParen([], expr)
  }

  /// `expr_repeat(expr, len)`: `[expr; len]`.
  function NewExprRepeat(expr: Expr, len: Expr): (e: ExprRepeat)
    ensures e.expr == expr && e.len == len && e.attrs == []
  {
    ExprRepeat([], expr, len)
  }

  /// `expr_try(expr)`: `expr?`.
  function NewExprTry(expr: Expr): (e: ExprTry)
    ensures e.expr == expr && e.attrs == []
  {
    ExprTry([], expr)
  }

  /// `expr_tuple(elems)`: `(elems)` in order.
  function NewExprTuple(elems: seq<Expr>): (e: ExprTuple)
    ensures e.elems == elems && e.attrs == []
  {
    ExprTuple([], elems)
  }

  /// `expr_reference(expr)`: `&expr` without `mut`.
  function NewExprReference(expr: Expr): (e: ExprReference)
    ensures e.expr == expr && e.mutability.None? && e.attrs == []
  {
    ExprReference([], None, expr)
  }

  /// `expr_path(path)`: a path expression without a qualified self.
  function NewExprPath(path: PathSource): (e: ExprPath)
    ensures e.path == IntoPath(path) && e.qself.None? && e.attrs == []
  {
    ExprPath([], None, IntoPath(path))
  }

  // ---- blocks ----------------------------------------------------------------

  /// `expr_async(block)`: `async { .. }` without `move`.
  function NewExprAsync(block: Block): (e: ExprAsync)
    ensures e.block == block && e.capture.None? && e.attrs == []
  {
    ExprAsync([], None, block)
  }

  /// `ExprAsync::capture(b)`: `async move { .. }` exactly when `b` holds;
  /// nothing else changes.
  function ExprAsyncCapture(e: ExprAsync, b: bool): (r: ExprAsync)
    ensures r.capture.Some? <==> b
    ensures r.(capture := e.capture) == e
  {
    e.(capture := MarkerIf(b))
  }

  /// `expr_block(block)`: `{ .. }` without a label.
  function NewExprBlock(block: Block): (e: ExprBlock)
    ensures e.block == block && e.labelled.None? && e.attrs == []
  {
    ExprBlock([], None, block)
  }

  /// `expr_const(block)`: `const { .. }`.
  function NewExprConst(block: Block): (e: ExprConst)
    ensures e.block == block && e.attrs == []
  {
    ExprConst([], block)
  }

  /// `expr_try_block(block)`: `try { .. }`.
  function NewExprTryBlock(block: Block): (e: ExprTryBlock)
    ensures e.block == block && e.attrs == []
  {
    ExprTryBlock([], block)
  }

  /// `expr_unsafe(block)`: `unsafe { .. }`.
  function NewExprUnsafe(block: Block): (e: ExprUnsafe)
    ensures e.block == block && e.attrs == []
  {
    ExprUnsafe([], block)
  }

  // ---- control flow ----------------------------------------------------------

  /// `expr_break()`: `break` without a label or value.
  function NewExprBreak(): (e: ExprBreak)
    ensures e.labelled.None? && e.expr.None? && e.attrs == []
  {
    ExprBreak([], None, None)
  }

  /// `ExprBreak::label(l)`: `break 'l ..`; nothing else changes.
  function ExprBreakLabel(e: ExprBreak, lifetime: Lifetime): (r: ExprBreak)
    ensures r.labelled == Some(lifetime)
    ensures r.(labelled := e.labelled) == e
  {
    e.(labelled := Some(lifetime))
  }

  /// `ExprBreak::expr(x)`: `break .. x`; nothing else changes.
  function ExprBreakExpr(e: ExprBreak, expr: Expr): (r: ExprBreak)
    ensures r.expr == Some(expr)
    ensures r.(expr := e.expr) == e
  {
    e.(expr := Some(expr))
  }

  /// `expr_continue()`: `continue` without a label.
  function NewExprContinue(): (e: ExprContinue)
    ensures e.labelled.None? && e.attrs == []
  {
    ExprContinue([], None)
  }

  /// `ExprContinue::label(l)`: `continue 'l`; nothing else changes.
  function ExprContinueLabel(e: ExprContinue, lifetime: Lifetime): (r: ExprContinue)
    ensures r.labelled == Some(lifetime)
    ensures r.(labelled := e.labelled) == e
  {
    e.(labelled := Some(lifetime))
  }

  /// `expr_return()`: `return` without a value.
  function NewExprReturn(): (e: ExprReturn)
    ensures e.expr.None? && e.attrs == []
  {
    ExprReturn([], None)
  }

  /// `ExprReturn::expr(x)`: `return x`; nothing else changes.
  function ExprReturnExpr(e: ExprReturn, expr: Expr): (r: ExprReturn)
    ensures r.expr == Some(expr)
    ensures r.(expr := e.expr) == e
  {
    e.(expr := Some(expr))
  }

  /// `expr_yield()`: `yield` without a value.
  function NewExprYield(): (e: ExprYield)
    ensures e.expr.None? && e.attrs == []
  {
    ExprYield([], None)
  }

  /// `ExprYield::expr(x)`: `yield x`; nothing else changes.
  function ExprYieldExpr(e: ExprYield, expr: Expr): (r: ExprYield)
    ensures r.expr == Some(expr)
    ensures r.(expr := e.expr) == e
  {
    e.(expr := Some(expr))
  }

  /// `break 'l x` may be built in either order.
  lemma ExprBreakSettersCommute(lifetime: Lifetime, expr: Expr)
    ensures ExprBreakExpr(ExprBreakLabel(NewExprBreak(), lifetime), expr)
            == ExprBreakLabel(ExprBreakExpr(NewExprBreak(), expr), lifetime)
  {
  }

  /// `expr_for_loop(pat, expr, body)`: `for pat in expr { body }` without a
  /// label.
  function NewExprForLoop(pat: Pat, expr: Expr, body: Block): (e: ExprForLoop)
    ensures e.pat == pat && e.expr == expr && e.body == body
    ensures e.labelled.None? && e.attrs == []
  {
    ExprForLoop([], None, pat, expr, body)
  }

  /// `expr_loop(body)`: `loop { body }` without a label.
  function NewExprLoop(body: Block): (e: ExprLoop)
    ensures e.body == body && e.labelled.None? && e.attrs == []
  {
    ExprLoop([], None, body)
  }

  /// `expr_while(cond, body)`: `while cond { body }` without a label.
  function NewExprWhile(cond: Expr, body: Block): (e: ExprWhile)
    ensures e.cond == cond && e.body == body && e.labelled.None? && e.attrs == []
  {
    ExprWhile([], None, cond, body)
  }

  /// `expr_if(cond, then)`: `if cond { then }` without an `else`.
  function NewExprIf(cond: Expr, thenBranch: Block): (e: ExprIf)
    ensures e.cond == cond && e.thenBranch == thenBranch
    ensures e.elseBranch.None? && e.attrs == []
  {
    ExprIf([], cond, thenBranch, None)
  }

  /// `ExprIf::else_branch(x)`: `if .. else x`; nothing else changes.
  function ExprIfElse(e: ExprIf, expr: Expr): (r: ExprIf)
    ensures r.elseBranch == Some(expr)
    ensures r.(elseBranch := e.elseBranch) == e
  {
    e.(elseBranch := Some(expr))
  }

  /// `expr_match(expr, arms)`: `match expr { arms }` with the arms in order.
  function NewExprMatch(expr: Expr, arms: seq<Arm>): (e: ExprMatch)
    ensures e.expr == expr && e.arms == arms && e.attrs == []
  {
    ExprMatch([], expr, arms)
  }

  /// `arm(pat, body)`: `pat => body,` without a guard, with its comma.
  function NewArm(pat: Pat, body: Expr): (a: Arm)
    ensures a.pat == pat && a.body == body && a.attrs == []
    ensures a.guard.None? && a.comma.Some?
  {
    Arm([], pat, None, body, Some(()))
  }

  /// `Arm::guard(g)`: `pat if g => body`; nothing else changes.
  function ArmGuard(a: Arm, guard: Expr): (r: Arm)
    ensures r.guard == Some(guard)
    ensures r.(guard := a.guard) == a
  {
    a.(guard := Some(guard))
  }

  /// `label(name)`: the loop label `'name:`.
  function NewLabel(name: Lifetime): (l: Label)
    ensures l.name == name
  {
    Label(name)
  }

  // ---- closures --------------------------------------------------------------

  /// `expr_closure(inputs, body)`: `|inputs| body` with the inputs in order and
  /// no `for<>`, `const`, `static`, `async`, `move` or return type.
  function NewExprClosure(inputs: seq<Pat>, body: Expr): (e: ExprClosure)
    ensures e.inputs == inputs && e.body == body && e.attrs == []
    ensures e.lifetimes.None? && e.constness.None? && e.movability.None?
    ensures e.asyncness.None? && e.capture.None? && e.output == ReturnType.Default
  {
    ExprClosure([], None, None, None, None, None, inputs, ReturnType.Default, body)
  }

  /// `ExprClosure::lifetimes(b)`: the empty `for<>` exactly when `b` holds;
  /// nothing else changes.
  function ExprClosureLifetimes(e: ExprClosure, b: bool): (r: ExprClosure)
    ensures r.lifetimes.Some? <==> b
    ensures b ==> r.lifetimes.value.lifetimes == []
    ensures r.(lifetimes := e.lifetimes) == e
  {
    e.(lifetimes := if b then Some(BoundLifetimes([])) else None)
  }

  /// `ExprClosure::constness(b)`: `const |..|` exactly when `b` holds.
  function ExprClosureConstness(e: ExprClosure, b: bool): (r: ExprClosure)
    ensures r.constness.Some? <==> b
    ensures r.(constness := e.constness) == e
  {
    e.(constness := MarkerIf(b))
  }

  /// `ExprClosure::movability(b)`: `static |..|` exactly when `b` holds.
  function ExprClosureMovability(e: ExprClosure, b: bool): (r: ExprClosure)
    ensures r.movability.Some? <==> b
    ensures r.(movability := e.movability) == e
  {
    e.(movability := MarkerIf(b))
  }

  /// `ExprClosure::asyncness(b)`: `async |..|` exactly when `b` holds.
  function ExprClosureAsyncness(e: ExprClosure, b: bool): (r: ExprClosure)
    ensures r.asyncness.Some? <==> b
    ensures r.(asyncness := e.asyncness) == e
  {
    e.(asyncness := MarkerIf(b))
  }

  /// `ExprClosure::capture(b)`: `move |..|` exactly when `b` holds.
  function ExprClosureCapture(e: ExprClosure, b: bool): (r: ExprClosure)
    ensures r.capture.Some? <==> b
    ensures r.(capture := e.capture) == e
  {
    e.(capture := MarkerIf(b))
  }

  /// The closure flags are independent switches: any two commute, setting one
  /// to `false` on a fresh closure changes nothing, and the inputs and body
  /// survive them all.
  lemma ExprClosureFlagsCommute(inputs: seq<Pat>, body: Expr, a: bool, b: bool, c: bool, d: bool)
    ensures var e := NewExprClosure(inputs, body);
      && ExprClosureCapture(ExprClosureAsyncness(e, a), b) == ExprClosureAsyncness(ExprClosureCapture(e, b), a)
      && ExprClosureConstness(ExprClosureMovability(e, c), d) == ExprClosureMovability(ExprClosureConstness(e, d), c)
      && ExprClosureLifetimes(ExprClosureCapture(e, a), b) == ExprClosureCapture(ExprClosureLifetimes(e, b), a)
      && ExprClosureLifetimes(e, false) == e && ExprClosureConstness(e, false) == e
      && ExprClosureMovability(e, false) == e && ExprClosureAsyncness(e, false) == e
      && ExprClosureCapture(e, false) == e
      && var r := ExprClosureCapture(ExprClosureAsyncness(ExprClosureConstness(e, a), b), c);
         r.inputs == inputs && r.body == body
  {
  }

  // ---- method calls ----------------------------------------------------------

  /// `expr_method_call(receiver, method, args)`: `receiver.method(args)` with
  /// the arguments in order and no turbofish.
  function NewExprMethodCall(receiver: Expr, methodName: Ident, args: seq<Expr>): (e: ExprMethodCall)
    ensures e.receiver == receiver && e.methodName == methodName && e.args == args
    ensures e.turbofish.None? && e.attrs == []
  {
    ExprMethodCall([], receiver, methodName, None, args)
  }

  /// `ExprMethodCall::turbofish(g)`: `receiver.method::<g>(args)`; nothing else
  /// changes.
  function ExprMethodCallTurbofish(e: ExprMethodCall, args: AngleBracketedGenericArguments): (r: ExprMethodCall)
    ensures r.turbofish == Some(args)
    ensures r.(turbofish := e.turbofish) == e
  {
    e.(turbofish := Some(args))
  }

  // ---- ranges ----------------------------------------------------------------

  /// `expr_range(limits)`: `..` or `..=` with neither bound.
  function NewExprRange(limits: RangeLimits): (e: ExprRange)
    ensures e.limits == limits && e.start.None? && e.end.None? && e.attrs == []
  {
    ExprRange([], None, limits, None)
  }

  /// `ExprRange::end(x)`: `..x`; nothing else changes.
  function ExprRangeEnd(e: ExprRange, expr: Expr): (r: ExprRange)
    ensures r.end == Some(expr)
    ensures r.(end := e.end) == e
  {
    e.(end := Some(expr))
  }

  /// `ExprRange::start(x)` as the crate writes it: the expression goes into
  /// the END bound, exactly as `end(x)` does, and the start bound is untouched.
  function ExprRangeStart(e: ExprRange, expr: Expr): (r: ExprRange)
    ensures r.end == Some(expr) && r.start == e.start
    ensures r.(end := e.end) == e
  {
    e.(end := Some(expr))
  }

  /// The defect: `expr_range(l).start(a)` has no start bound, it is the same
  /// range as `expr_range(l).end(a)`, and a later `end(b)` erases `a`
  /// altogether, so `a..b` cannot be built.
  lemma ExprRangeStartWritesEnd(limits: RangeLimits, a: Expr, b: Expr)
    ensures ExprRangeStart(NewExprRange(limits), a).start.None?
    ensures ExprRangeStart(NewExprRange(limits), a) == ExprRangeEnd(NewExprRange(limits), a)
    ensures ExprRangeEnd(ExprRangeStart(NewExprRange(limits), a), b) == ExprRangeEnd(NewExprRange(limits), b)
  {
  }

  /// `ExprRange::start(x)` as intended: `x..`; nothing else changes.
  function ExprRangeStartIntended(e: ExprRange, expr: Expr): (r: ExprRange)
    ensures r.start == Some(expr)
    ensures r.(start := e.start) == e
  {
    e.(start := Some(expr))
  }

  /// With the intended `start`, `expr_range(l).start(a).end(b)` is `a..b` (or
  /// `a..=b`), in either order of the two calls.
  lemma ExprRangeIntendedBuildsBoth(limits: RangeLimits, a: Expr, b: Expr)
    ensures var r := ExprRangeEnd(ExprRangeStartIntended(NewExprRange(limits), a), b);
      && r == ExprRangeStartIntended(ExprRangeEnd(NewExprRange(limits), b), a)
      && r.start == Some(a) && r.end == Some(b) && r.limits == limits
  {
  }

  // ---- struct literals -------------------------------------------------------

  /// A functional-update base `..rest` comes with its `..`.
  predicate ExprStructWellFormed(e: ExprStruct) {
    e.rest.Some? ==> e.dot2Token.Some?
  }

  /// `expr_struct(path, fields)`: `path { fields }` in order, without `..`,
  /// base expression or qualified self.
  function NewExprStruct(path: PathSource, fields: seq<FieldValue>): (e: ExprStruct)
    ensures e.path == IntoPath(path) && e.fields == fields && e.attrs == []
    ensures e.qself.None? && e.dot2Token.None? && e.rest.None?
    ensures ExprStructWellFormed(e)
  {
    ExprStruct([], None, IntoPath(path), fields, None, None)
  }

  /// `ExprStruct::dot2_token(b)`: the `..` is present exactly when `b` holds;
  /// nothing else changes.  Dropping it while a base is present gives a
  /// literal that is no longer well formed.
  function ExprStructDot2Token(e: ExprStruct, b: bool): (r: ExprStruct)
    ensures r.dot2Token.Some? <==> b
    ensures r.(dot2Token := e.dot2Token) == e
    ensures ExprStructWellFormed(r) <==> b || e.rest.None?
  {
    e.(dot2Token := MarkerIf(b))
  }

  /// `ExprStruct::rest(x)`: `path { fields, ..x }`, writing the `..` with the
  /// base; nothing else changes.
  function ExprStructRest(e: ExprStruct, rest: Expr): (r: ExprStruct)
    ensures r.rest == Some(rest) && r.dot2Token.Some?
    ensures r.(dot2Token := e.dot2Token, rest := e.rest) == e
    ensures ExprStructWellFormed(r)
  {
    e.(dot2Token := Some(()), rest := Some(rest))
  }

  /// `rest(x)` already writes the `..`, so `dot2_token(true)` after it changes
  /// nothing, and `rest` wins over an earlier `dot2_token(false)`.
  lemma ExprStructRestImpliesDot2(e: ExprStruct, rest: Expr)
    ensures ExprStructDot2Token(ExprStructRest(e, rest), true) == ExprStructRest(e, rest)
    ensures ExprStructRest(ExprStructDot2Token(e, false), rest) == ExprStructRest(e, rest)
  {
  }

  /// `field_value(member, expr)`: `member: expr`, with its colon.
  function NewFieldValue(member: Member, expr: Expr): (f: FieldValue)
    ensures f.member == member && f.expr == expr && f.attrs == [] && f.colonToken.Some?
  {
    FieldValue([], member, Some(()), expr)
  }

  // ---- members ---------------------------------------------------------------

  /// `u32::MAX`: syn accepts only indices below this bound, since
  /// `Index::from(usize)` asserts that the value is less than it.
  const IndexLimit: nat := 0xFFFF_FFFF

  /// `index(i)`: the unnamed member `.i`.
  function NewIndex(i: nat): (r: Index)
    requires i < IndexLimit
    ensures r.index == i
  {
    Index.Index(i)
  }

  // ---- attrs_builder!, label_builder!, qself_builder!, mutability_builder!, output_builder! ----

  const ExprArrayAttrs: Accessor<ExprArray, seq<Attribute>> :=
    Accessor((n: ExprArray) => n.attrs, (n: ExprArray, v) => n.(attrs := v))
  const ExprAssignAttrs: Accessor<ExprAssign, seq<Attribute>> :=
    Accessor((n: ExprAssign) => n.attrs, (n: ExprAssign, v) => n.(attrs := v))
  const ExprAsyncAttrs: Accessor<ExprAsync, seq<Attribute>> :=
    Accessor((n: ExprAsync) => n.attrs, (n: ExprAsync, v) => n.(attrs := v))
  const ExprAwaitAttrs: Accessor<ExprAwait, seq<Attribute>> :=
    Accessor((n: ExprAwait) => n.attrs, (n: ExprAwait, v) => n.(attrs := v))
  const ExprBinaryAttrs: Accessor<ExprBinary, seq<Attribute>> :=
    Accessor((n: ExprBinary) => n.attrs, (n: ExprBinary, v) => n.(attrs := v))
  const ExprBlockAttrs: Accessor<ExprBlock, seq<Attribute>> :=
    Accessor((n: ExprBlock) => n.attrs, (n: ExprBlock, v) => n.(attrs := v))
  const ExprBreakAttrs: Accessor<ExprBreak, seq<Attribute>> :=
    Accessor((n: ExprBreak) => n.attrs, (n: ExprBreak, v) => n.(attrs := v))
  const ExprCallAttrs: Accessor<ExprCall, seq<Attribute>> :=
    Accessor((n: ExprCall) => n.attrs, (n: ExprCall, v) => n.(attrs := v))
  const ExprCastAttrs: Accessor<ExprCast, seq<Attribute>> :=
    Accessor((n: ExprCast) => n.attrs, (n: ExprCast, v) => n.(attrs := v))
  const ExprClosureAttrs: Accessor<ExprClosure, seq<Attribute>> :=
    Accessor((n: ExprClosure) => n.attrs, (n: ExprClosure, v) => n.(attrs := v))
  const ExprConstAttrs: Accessor<ExprConst, seq<Attribute>> :=
    Accessor((n: ExprConst) => n.attrs, (n: ExprConst, v) => n.(attrs := v))
  const ExprContinueAttrs: Accessor<ExprContinue, seq<Attribute>> :=
    Accessor((n: ExprContinue) => n.attrs, (n: ExprContinue, v) => n.(attrs := v))
  const ExprFieldAttrs: Accessor<ExprField, seq<Attribute>> :=
    Accessor((n: ExprField) => n.attrs, (n: ExprField, v) => n.(attrs := v))
  const ExprForLoopAttrs: Accessor<ExprForLoop, seq<Attribute>> :=
    Accessor((n: ExprForLoop) => n.attrs, (n: ExprForLoop, v) => n.(attrs := v))
  const ExprGroupAttrs: Accessor<ExprGroup, seq<Attribute>> :=
    Accessor((n: ExprGroup) => n.attrs, (n: ExprGroup, v) => n.(attrs := v))
  const ExprIfAttrs: Accessor<ExprIf, seq<Attribute>> :=
    Accessor((n: ExprIf) => n.attrs, (n: ExprIf, v) => n.(attrs := v))
  const ExprIndexAttrs: Accessor<ExprIndex, seq<Attribute>> :=
    Accessor((n: ExprIndex) => n.attrs, (n: ExprIndex, v) => n.(attrs := v))
  const ExprInferAttrs: Accessor<ExprInfer, seq<Attribute>> :=
    Accessor((n: ExprInfer) => n.attrs, (n: ExprInfer, v) => n.(attrs := v))
  const ExprLetAttrs: Accessor<ExprLet, seq<Attribute>> :=
    Accessor((n: ExprLet) => n.attrs, (n: ExprLet, v) => n.(attrs := v))
  const ExprLitAttrs: Accessor<ExprLit, seq<Attribute>> :=
    Accessor((n: ExprLit) => n.attrs, (n: ExprLit, v) => n.(attrs := v))
  const ExprLoopAttrs: Accessor<ExprLoop, seq<Attribute>> :=
    Accessor((n: ExprLoop) => n.attrs, (n: ExprLoop, v) => n.(attrs := v))
  const ExprMacroAttrs: Accessor<ExprMacro, seq<Attribute>> :=
    Accessor((n: ExprMacro) => n.attrs, (n: ExprMacro, v) => n.(attrs := v))
  const ExprMatchAttrs: Accessor<ExprMatch, seq<Attribute>> :=
    Accessor((n: ExprMatch) => n.attrs, (n: ExprMatch, v) => n.(attrs := v))
  const ExprMethodCallAttrs: Accessor<ExprMethodCall, seq<Attribute>> :=
    Accessor((n: ExprMethodCall) => n.attrs, (n: ExprMethodCall, v) => n.(attrs := v))
  const ExprParenAttrs: Accessor<ExprParen, seq<Attribute>> :=
    Accessor((n: ExprParen) => n.attrs, (n: ExprParen, v) => n.(attrs := v))
  const ExprPathAttrs: Accessor<ExprPath, seq<Attribute>> :=
    Accessor((n: ExprPath) => n.attrs, (n: ExprPath, v) => n.(attrs := v))
  const ExprRangeAttrs: Accessor<ExprRange, seq<Attribute>> :=
    Accessor((n: ExprRange) => n.attrs, (n: ExprRange, v) => n.(attrs := v))
  const ExprReferenceAttrs: Accessor<ExprReference, seq<Attribute>> :=
    Accessor((n: ExprReference) => n.attrs, (n: ExprReference, v) => n.(attrs := v))
  const ExprRepeatAttrs: Accessor<ExprRepeat, seq<Attribute>> :=
    Accessor((n: ExprRepeat) => n.attrs, (n: ExprRepeat, v) => n.(attrs := v))
  const ExprReturnAttrs: Accessor<ExprReturn, seq<Attribute>> :=
    Accessor((n: ExprReturn) => n.attrs, (n: ExprReturn, v) => n.(attrs := v))
  const ExprStructAttrs: Accessor<ExprStruct, seq<Attribute>> :=
    Accessor((n: ExprStruct) => n.attrs, (n: ExprStruct, v) => n.(attrs := v))
  const ExprTryAttrs: Accessor<ExprTry, seq<Attribute>> :=
    Accessor((n: ExprTry) => n.attrs, (n: ExprTry, v) => n.(attrs := v))
  const ExprTryBlockAttrs: Accessor<ExprTryBlock, seq<Attribute>> :=
    Accessor((n: ExprTryBlock) => n.attrs, (n: ExprTryBlock, v) => n.(attrs := v))
  const ExprTupleAttrs: Accessor<ExprTuple, seq<Attribute>> :=
    Accessor((n: ExprTuple) => n.attrs, (n: ExprTuple, v) => n.(attrs := v))
  const ExprUnaryAttrs: Accessor<ExprUnary, seq<Attribute>> :=
    Accessor((n: ExprUnary) => n.attrs, (n: ExprUnary, v) => n.(attrs := v))
  const ExprUnsafeAttrs: Accessor<ExprUnsafe, seq<Attribute>> :=
    Accessor((n: ExprUnsafe) => n.attrs, (n: ExprUnsafe, v) => n.(attrs := v))
  const ExprWhileAttrs: Accessor<ExprWhile, seq<Attribute>> :=
    Accessor((n: ExprWhile) => n.attrs, (n: ExprWhile, v) => n.(attrs := v))
  const ExprYieldAttrs: Accessor<ExprYield, seq<Attribute>> :=
    Accessor((n: ExprYield) => n.attrs, (n: ExprYield, v) => n.(attrs := v))
  const FieldValueAttrs: Accessor<FieldValue, seq<Attribute>> :=
    Accessor((n: FieldValue) => n.attrs, (n: FieldValue, v) => n.(attrs := v))
  const ArmAttrs: Accessor<Arm, seq<Attribute>> :=
    Accessor((n: Arm) => n.attrs, (n: Arm, v) => n.(attrs := v))
  const ExprBlockLabel: Accessor<ExprBlock, Option<Label>> :=
    Accessor((n: ExprBlock) => n.labelled, (n: ExprBlock, v) => n.(labelled := v))
  const ExprForLoopLabel: Accessor<ExprForLoop, Option<Label>> :=
    Accessor((n: ExprForLoop) => n.labelled, (n: ExprForLoop, v) => n.(labelled := v))
  const ExprLoopLabel: Accessor<ExprLoop, Option<Label>> :=
    Accessor((n: ExprLoop) => n.labelled, (n: ExprLoop, v) => n.(labelled := v))
  const ExprWhileLabel: Accessor<ExprWhile, Option<Label>> :=
    Accessor((n: ExprWhile) => n.labelled, (n: ExprWhile, v) => n.(labelled := v))
  const ExprPathQSelf: Accessor<ExprPath, Option<QSelf>> :=
    Accessor((n: ExprPath) => n.qself, (n: ExprPath, v) => n.(qself := v))
  const ExprStructQSelf: Accessor<ExprStruct, Option<QSelf>> :=
    Accessor((n: ExprStruct) => n.qself, (n: ExprStruct, v) => n.(qself := v))
  const ExprReferenceMutability: Accessor<ExprReference, Marker> :=
    Accessor((n: ExprReference) => n.mutability, (n: ExprReference, v) => n.(mutability := v))
  const ExprClosureOutput: Accessor<ExprClosure, ReturnType> :=
    Accessor((n: ExprClosure) => n.output, (n: ExprClosure, v) => n.(output := v))

  /// The attribute accessors of the records ExprArray to ExprClosure reach their own field.
  lemma ExprAttrsLawfulAToC()
    ensures Lawful(ExprArrayAttrs) && Lawful(ExprAssignAttrs) && Lawful(ExprAsyncAttrs) && Lawful(ExprAwaitAttrs)
    ensures Lawful(ExprBinaryAttrs) && Lawful(ExprBlockAttrs) && Lawful(ExprBreakAttrs) && Lawful(ExprCallAttrs)
    ensures Lawful(ExprCastAttrs) && Lawful(ExprClosureAttrs)
  {
  }

  /// The attribute accessors of the records ExprConst to ExprLoop reach their own field.
  lemma ExprAttrsLawfulCToL()
    ensures Lawful(ExprConstAttrs) && Lawful(ExprContinueAttrs) && Lawful(ExprFieldAttrs) && Lawful(ExprForLoopAttrs)
    ensures Lawful(ExprGroupAttrs) && Lawful(ExprIfAttrs) && Lawful(ExprIndexAttrs) && Lawful(ExprInferAttrs)
    ensures Lawful(ExprLetAttrs) && Lawful(ExprLitAttrs) && Lawful(ExprLoopAttrs)
  {
  }

  /// The attribute accessors of the records ExprMacro to ExprReturn reach their own field.
  lemma ExprAttrsLawfulMToR()
    ensures Lawful(ExprMacroAttrs) && Lawful(ExprMatchAttrs) && Lawful(ExprMethodCallAttrs) && Lawful(ExprParenAttrs)
    ensures Lawful(ExprPathAttrs) && Lawful(ExprRangeAttrs) && Lawful(ExprReferenceAttrs) && Lawful(ExprRepeatAttrs)
    ensures Lawful(ExprReturnAttrs)
  {
  }

  /// The attribute accessors of the records ExprStruct to Arm reach their own field.
  lemma ExprAttrsLawfulSToY()
    ensures Lawful(ExprStructAttrs) && Lawful(ExprTryAttrs) && Lawful(ExprTryBlockAttrs) && Lawful(ExprTupleAttrs)
    ensures Lawful(ExprUnaryAttrs) && Lawful(ExprUnsafeAttrs) && Lawful(ExprWhileAttrs) && Lawful(ExprYieldAttrs)
    ensures Lawful(FieldValueAttrs) && Lawful(ArmAttrs)
  {
  }

  /// The label, qualified-self, mutability and output accessors reach their own
  /// field, and the ones of one record are independent of its attributes.
  lemma ExprAccessorsLawful()
    ensures Lawful(ExprBlockLabel) && Lawful(ExprForLoopLabel) && Lawful(ExprLoopLabel) && Lawful(ExprWhileLabel)
    ensures Lawful(ExprPathQSelf) && Lawful(ExprStructQSelf)
    ensures Lawful(ExprReferenceMutability) && Lawful(ExprClosureOutput)
    ensures Independent(ExprClosureAttrs, ExprClosureOutput) && Independent(ExprStructAttrs, ExprStructQSelf)
  {
  }
}
