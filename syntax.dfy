/// The part of the `syn` syntax tree that the builders construct.
///
/// Every node keeps the fields the builders set.  Punctuation that is always
/// printed (`#`, `[`, `]`, `fn`, `;`, ...) carries nothing but a source span,
/// so it is left out; punctuation that may be absent is a `Marker` (present
/// or not).  Identifiers, lifetimes, literals and token streams are opaque
/// values.  Where syn names a variant `None`, the model gives it a name that
/// does not clash with `Option.None` (`PathArguments.NoArguments`,
/// `TraitBoundModifier.NoModifier`, `StaticMutability.Immutable`,
/// `FieldMutability.FieldMutabilityNone`).
module Syntax {
  import opened Options

  // ---- opaque leaves -------------------------------------------------------

  datatype Ident = Ident(name: string)
  datatype Lifetime = Lifetime(ident: Ident)
  datatype Lit = Lit(repr: string)
  datatype LitStr = LitStr(value: string)
  datatype TokenStream = TokenStream(text: string)
  datatype Index = Index(index: nat)
  datatype Member = Named(ident: Ident) | Unnamed(index: Index)

  // ---- attributes, visibility, macros ---------------------------------------

  datatype AttrStyle = Outer | Inner
  datatype MacroDelimiter = Paren | Brace | Bracket
  datatype FieldMutability = FieldMutabilityNone
  datatype StaticMutability = Mut | Immutable
  datatype TraitBoundModifier = NoModifier | Maybe
  datatype RangeLimits = HalfOpen | Closed

  datatype BinOp =
    | Add | Sub | Mul | Div | Rem | And | Or
    | BitXor | BitAnd | BitOr | Shl | Shr
    | Eq | Lt | Le | Ne | Ge | Gt
    | AddAssign | SubAssign | MulAssign | DivAssign | RemAssign
    | BitXorAssign | BitAndAssign | BitOrAssign | ShlAssign | ShrAssign

  datatype UnOp = Deref | Not | Neg

  datatype Attribute = Attribute(style: AttrStyle, meta: Meta)

  datatype Meta =
    | Path(Path)
    | List(MetaList)
    | NameValue(MetaNameValue)

  datatype MetaList = MetaList(path: Path, delimiter: MacroDelimiter, tokens: TokenStream)
  datatype MetaNameValue = MetaNameValue(path: Path, value: Expr)

  datatype Macro = Macro(path: Path, delimiter: MacroDelimiter, tokens: TokenStream)

  datatype Visibility = Public | Restricted(VisRestricted) | Inherited
  datatype VisRestricted = VisRestricted(inToken: Marker, path: Path)

  // ---- paths -----------------------------------------------------------------

  datatype Path = Path(leadingColon: Marker, segments: seq<PathSegment>)
  datatype PathSegment = PathSegment(ident: Ident, arguments: PathArguments)

  datatype PathArguments =
    | NoArguments
    | AngleBracketed(AngleBracketedGenericArguments)
    | Parenthesized(ParenthesizedGenericArguments)

  datatype AngleBracketedGenericArguments =
    AngleBracketedGenericArguments(colon2Token: Marker, args: seq<GenericArgument>)

  datatype GenericArgument =
    | Lifetime(Lifetime)
    | Type(Type)
    | Const(Expr)
    | AssocType(AssocType)
    | AssocConst(AssocConst)
    | Constraint(Constraint)

  datatype AssocType =
    AssocType(ident: Ident, generics: Option<AngleBracketedGenericArguments>, ty: Type)
  datatype AssocConst =
    AssocConst(ident: Ident, generics: Option<AngleBracketedGenericArguments>, value: Expr)
  datatype Constraint =
    Constraint(ident: Ident, generics: Option<AngleBracketedGenericArguments>, bounds: seq<TypeParamBound>)

  datatype ParenthesizedGenericArguments =
    ParenthesizedGenericArguments(inputs: seq<Type>, output: ReturnType)

  datatype QSelf = QSelf(ty: Type, position: nat, asToken: Marker)

  datatype ReturnType = Default | Type(Type)

  // ---- generics --------------------------------------------------------------

  datatype Generics = Generics(
    ltToken: Marker, params: seq<GenericParam>, gtToken: Marker, whereClause: Option<WhereClause>)

  datatype GenericParam =
    | Lifetime(LifetimeParam)
    | Type(TypeParam)
    | Const(ConstParam)

  datatype LifetimeParam = LifetimeParam(
    attrs: seq<Attribute>, lifetime: Lifetime, colonToken: Marker, bounds: seq<Lifetime>)

  datatype TypeParam = TypeParam(
    attrs: seq<Attribute>, ident: Ident, colonToken: Marker, bounds: seq<TypeParamBound>,
    eqToken: Marker, default: Option<Type>)

  datatype ConstParam = ConstParam(
    attrs: seq<Attribute>, ident: Ident, ty: Type, eqToken: Marker, default: Option<Expr>)

  datatype BoundLifetimes = BoundLifetimes(lifetimes: seq<GenericParam>)

  datatype TypeParamBound =
    | Trait(TraitBound)
    | Lifetime(Lifetime)
    | Verbatim(TokenStream)

  datatype TraitBound = TraitBound(
    parenToken: Marker, modifier: TraitBoundModifier, lifetimes: Option<BoundLifetimes>, path: Path)

  datatype WhereClause = WhereClause(predicates: seq<WherePredicate>)

  datatype WherePredicate =
    | Lifetime(PredicateLifetime)
    | Type(PredicateType)

  datatype PredicateLifetime = PredicateLifetime(lifetime: Lifetime, bounds: seq<Lifetime>)
  datatype PredicateType = PredicateType(
    lifetimes: Option<BoundLifetimes>, boundedTy: Type, bounds: seq<TypeParamBound>)

  // ---- data and derive input -------------------------------------------------

  datatype Variant = Variant(attrs: seq<Attribute>, ident: Ident, fields: Fields, discriminant: Option<Expr>)

  datatype Fields =
    | Named(FieldsNamed)
    | Unnamed(FieldsUnnamed)
    | Unit

  datatype FieldsNamed = FieldsNamed(named: seq<Field>)
  datatype FieldsUnnamed = FieldsUnnamed(unnamed: seq<Field>)

  datatype Field = Field(
    attrs: seq<Attribute>, vis: Visibility, mutability: FieldMutability,
    ident: Option<Ident>, colonToken: Marker, ty: Type)

  datatype DeriveInput = DeriveInput(
    attrs: seq<Attribute>, vis: Visibility, ident: Ident, generics: Generics, data: Data)

  datatype Data =
    | Struct(DataStruct)
    | Enum(DataEnum)
    | Union(DataUnion)

  datatype DataStruct = DataStruct(fields: Fields, semiToken: Marker)
  datatype DataEnum = DataEnum(variants: seq<Variant>)
  datatype DataUnion = DataUnion(fields: FieldsNamed)

  // ---- types -----------------------------------------------------------------

  datatype Type =
    | Array(TypeArray)
    | BareFn(TypeBareFn)
    | Group(TypeGroup)
    | ImplTrait(TypeImplTrait)
    | Infer(TypeInfer)
    | Macro(TypeMacro)
    | Never(TypeNever)
    | Paren(TypeParen)
    | Path(TypePath)
    | Ptr(TypePtr)
    | Reference(TypeReference)
    | Slice(TypeSlice)
    | TraitObject(TypeTraitObject)
    | Tuple(TypeTuple)
    | Verbatim(TokenStream)

  datatype TypeArray = TypeArray(elem: Type, len: Expr)
  datatype TypeBareFn = TypeBareFn(
    lifetimes: Option<BoundLifetimes>, unsafety: Marker, abi: Option<Abi>,
    inputs: seq<BareFnArg>, variadic: Option<BareVariadic>, output: ReturnType)
  datatype TypeGroup = TypeGroup(elem: Type)
  datatype TypeImplTrait = TypeImplTrait(bounds: seq<TypeParamBound>)
  datatype TypeInfer = TypeInfer
  datatype TypeMacro = TypeMacro(mac: Macro)
  datatype TypeNever = TypeNever
  datatype TypeParen = TypeParen(elem: Type)
  datatype TypePath = TypePath(qself: Option<QSelf>, path: Path)
  datatype TypePtr = TypePtr(constToken: Marker, mutability: Marker, elem: Type)
  datatype TypeReference = TypeReference(lifetime: Option<Lifetime>, mutability: Marker, elem: Type)
  datatype TypeSlice = TypeSlice(elem: Type)
  datatype TypeTraitObject = TypeTraitObject(dynToken: Marker, bounds: seq<TypeParamBound>)
  datatype TypeTuple = TypeTuple(elems: seq<Type>)

  datatype Abi = Abi(name: Option<LitStr>)
  datatype BareFnArg = BareFnArg(attrs: seq<Attribute>, name: Option<Ident>, ty: Type)
  datatype BareVariadic = BareVariadic(attrs: seq<Attribute>, name: Option<Ident>, comma: Marker)

  // ---- patterns --------------------------------------------------------------

  datatype Pat =
    | Const(ExprConst)
    | Ident(PatIdent)
    | Lit(ExprLit)
    | Macro(ExprMacro)
    | Or(PatOr)
    | Paren(PatParen)
    | Path(ExprPath)
    | Range(ExprRange)
    | Reference(PatReference)
    | Rest(PatRest)
    | Slice(PatSlice)
    | Struct(PatStruct)
    | Tuple(PatTuple)
    | TupleStruct(PatTupleStruct)
    | Type(PatType)
    | Verbatim(TokenStream)
    | Wild(PatWild)

  datatype PatIdent = PatIdent(
    attrs: seq<Attribute>, byRef: Marker, mutability: Marker, ident: Ident, subpat: Option<Pat>)
  datatype PatOr = PatOr(attrs: seq<Attribute>, leadingVert: Marker, cases: seq<Pat>)
  datatype PatParen = PatParen(attrs: seq<Attribute>, pat: Pat)
  datatype PatReference = PatReference(attrs: seq<Attribute>, mutability: Marker, pat: Pat)
  datatype PatRest = PatRest(attrs: seq<Attribute>)
  datatype PatSlice = PatSlice(attrs: seq<Attribute>, elems: seq<Pat>)
  datatype PatStruct = PatStruct(
    attrs: seq<Attribute>, qself: Option<QSelf>, path: Path, fields: seq<FieldPat>, rest: Option<PatRest>)
  datatype PatTuple = PatTuple(attrs: seq<Attribute>, elems: seq<Pat>)
  datatype PatTupleStruct = PatTupleStruct(
    attrs: seq<Attribute>, qself: Option<QSelf>, path: Path, elems: seq<Pat>)
  datatype PatType = PatType(attrs: seq<Attribute>, pat: Pat, ty: Type)
  datatype PatWild = PatWild(attrs: seq<Attribute>)
  datatype FieldPat = FieldPat(attrs: seq<Attribute>, member: Member, colonToken: Marker, pat: Pat)

  // ---- expressions -----------------------------------------------------------

  datatype Expr =
    | Array(ExprArray)
    | Assign(ExprAssign)
    | Async(ExprAsync)
    | Await(ExprAwait)
    | Binary(ExprBinary)
    | Block(ExprBlock)
    | Break(ExprBreak)
    | Call(ExprCall)
    | Cast(ExprCast)
    | Closure(ExprClosure)
    | Const(ExprConst)
    | Continue(ExprContinue)
    | Field(ExprField)
    | ForLoop(ExprForLoop)
    | Group(ExprGroup)
    | If(ExprIf)
    | Index(ExprIndex)
    | Infer(ExprInfer)
    | Let(ExprLet)
    | Lit(ExprLit)
    | Loop(ExprLoop)
    | Macro(ExprMacro)
    | Match(ExprMatch)
    | MethodCall(ExprMethodCall)
    | Paren(ExprParen)
    | Path(ExprPath)
    | Range(ExprRange)
    | Reference(ExprReference)
    | Repeat(ExprRepeat)
    | Return(ExprReturn)
    | Struct(ExprStruct)
    | Try(ExprTry)
    | TryBlock(ExprTryBlock)
    | Tuple(ExprTuple)
    | Unary(ExprUnary)
    | Unsafe(ExprUnsafe)
    | Verbatim(TokenStream)
    | While(ExprWhile)
    | Yield(ExprYield)

  datatype ExprArray = ExprArray(attrs: seq<Attribute>, elems: seq<Expr>)
  datatype ExprAssign = ExprAssign(attrs: seq<Attribute>, left: Expr, right: Expr)
  datatype ExprAsync = ExprAsync(attrs: seq<Attribute>, capture: Marker, block: Block)
  datatype ExprAwait = ExprAwait(attrs: seq<Attribute>, base: Expr)
  datatype ExprBinary = ExprBinary(attrs: seq<Attribute>, left: Expr, op: BinOp, right: Expr)
  datatype ExprBlock = ExprBlock(attrs: seq<Attribute>, labelled: Option<Label>, block: Block)
  datatype ExprBreak = ExprBreak(attrs: seq<Attribute>, labelled: Option<Lifetime>, expr: Option<Expr>)
  datatype ExprCall = ExprCall(attrs: seq<Attribute>, func: Expr, args: seq<Expr>)
  datatype ExprCast = ExprCast(attrs: seq<Attribute>, expr: Expr, ty: Type)
  datatype ExprClosure = ExprClosure(
    attrs: seq<Attribute>, lifetimes: Option<BoundLifetimes>, constness: Marker, movability: Marker,
    asyncness: Marker, capture: Marker, inputs: seq<Pat>, output: ReturnType, body: Expr)
  datatype ExprConst = ExprConst(attrs: seq<Attribute>, block: Block)
  datatype ExprContinue = ExprContinue(attrs: seq<Attribute>, labelled: Option<Lifetime>)
  datatype ExprField = ExprField(attrs: seq<Attribute>, base: Expr, member: Member)
  datatype ExprForLoop = ExprForLoop(
    attrs: seq<Attribute>, labelled: Option<Label>, pat: Pat, expr: Expr, body: Block)
  datatype ExprGroup = ExprGroup(attrs: seq<Attribute>, expr: Expr)
  datatype ExprIf = ExprIf(attrs: seq<Attribute>, cond: Expr, thenBranch: Block, elseBranch: Option<Expr>)
  datatype ExprIndex = ExprIndex(attrs: seq<Attribute>, expr: Expr, index: Expr)
  datatype ExprInfer = ExprInfer(attrs: seq<Attribute>)
  datatype ExprLet = ExprLet(attrs: seq<Attribute>, pat: Pat, expr: Expr)
  datatype ExprLit = ExprLit(attrs: seq<Attribute>, lit: Lit)
  datatype ExprLoop = ExprLoop(attrs: seq<Attribute>, labelled: Option<Label>, body: Block)
  datatype ExprMacro = ExprMacro(attrs: seq<Attribute>, mac: Macro)
  datatype ExprMatch = ExprMatch(attrs: seq<Attribute>, expr: Expr, arms: seq<Arm>)
  datatype ExprMethodCall = ExprMethodCall(
    attrs: seq<Attribute>, receiver: Expr, methodName: Ident,
    turbofish: Option<AngleBracketedGenericArguments>, args: seq<Expr>)
  datatype ExprParen = ExprParen(attrs: seq<Attribute>, expr: Expr)
  datatype ExprPath = ExprPath(attrs: seq<Attribute>, qself: Option<QSelf>, path: Path)
  datatype ExprRange = ExprRange(attrs: seq<Attribute>, start: Option<Expr>, limits: RangeLimits, end: Option<Expr>)
  datatype ExprReference = ExprReference(attrs: seq<Attribute>, mutability: Marker, expr: Expr)
  datatype ExprRepeat = ExprRepeat(attrs: seq<Attribute>, expr: Expr, len: Expr)
  datatype ExprReturn = ExprReturn(attrs: seq<Attribute>, expr: Option<Expr>)
  datatype ExprStruct = ExprStruct(
    attrs: seq<Attribute>, qself: Option<QSelf>, path: Path, fields: seq<FieldValue>,
    dot2Token: Marker, rest: Option<Expr>)
  datatype ExprTry = ExprTry(attrs: seq<Attribute>, expr: Expr)
  datatype ExprTryBlock = ExprTryBlock(attrs: seq<Attribute>, block: Block)
  datatype ExprTuple = ExprTuple(attrs: seq<Attribute>, elems: seq<Expr>)
  datatype ExprUnary = ExprUnary(attrs: seq<Attribute>, op: UnOp, expr: Expr)
  datatype ExprUnsafe = ExprUnsafe(attrs: seq<Attribute>, block: Block)
  datatype ExprWhile = ExprWhile(attrs: seq<Attribute>, labelled: Option<Label>, cond: Expr, body: Block)
  datatype ExprYield = ExprYield(attrs: seq<Attribute>, expr: Option<Expr>)

  datatype FieldValue = FieldValue(attrs: seq<Attribute>, member: Member, colonToken: Marker, expr: Expr)
  datatype Label = Label(name: Lifetime)
  datatype Arm = Arm(attrs: seq<Attribute>, pat: Pat, guard: Option<Expr>, body: Expr, comma: Marker)

  // ---- statements ------------------------------------------------------------

  datatype Block = Block(stmts: seq<Stmt>)

  datatype Stmt =
    | Local(Local)
    | Item(Item)
    | Expr(Expr, semi: Marker)
    | Macro(StmtMacro)

  datatype Local = Local(attrs: seq<Attribute>, pat: Pat, init: Option<LocalInit>)
  datatype LocalInit = LocalInit(expr: Expr, diverge: Option<Expr>)
  datatype StmtMacro = StmtMacro(attrs: seq<Attribute>, mac: Macro, semiToken: Marker)

  // ---- items -----------------------------------------------------------------

  datatype Item =
    | Const(ItemConst)
    | Enum(ItemEnum)
    | ExternCrate(ItemExternCrate)
    | Fn(ItemFn)
    | ForeignMod(ItemForeignMod)
    | Impl(ItemImpl)
    | Macro(ItemMacro)
    | Mod(ItemMod)
    | Static(ItemStatic)
    | Struct(ItemStruct)
    | Trait(ItemTrait)
    | TraitAlias(ItemTraitAlias)
    | Type(ItemType)
    | Union(ItemUnion)
    | Use(ItemUse)
    | Verbatim(TokenStream)

  datatype ItemConst = ItemConst(
    attrs: seq<Attribute>, vis: Visibility, ident: Ident, generics: Generics, ty: Type, expr: Expr)
  datatype ItemEnum = ItemEnum(
    attrs: seq<Attribute>, vis: Visibility, ident: Ident, generics: Generics, variants: seq<Variant>)
  datatype ItemExternCrate = ItemExternCrate(
    attrs: seq<Attribute>, vis: Visibility, ident: Ident, rename: Option<Ident>)
  datatype ItemFn = ItemFn(attrs: seq<Attribute>, vis: Visibility, sig: Signature, block: Block)
  datatype ItemForeignMod = ItemForeignMod(
    attrs: seq<Attribute>, unsafety: Marker, abi: Abi, items: seq<ForeignItem>)
  /// `ofTrait` is syn's `trait_`: the optional `!`, the trait path and `for`.
  datatype ItemImpl = ItemImpl(
    attrs: seq<Attribute>, defaultness: Marker, unsafety: Marker, generics: Generics,
    ofTrait: Option<(Marker, Path)>, selfTy: Type, items: seq<ImplItem>)
  datatype ItemMacro = ItemMacro(attrs: seq<Attribute>, ident: Option<Ident>, mac: Macro, semiToken: Marker)
  datatype ItemMod = ItemMod(
    attrs: seq<Attribute>, vis: Visibility, unsafety: Marker, ident: Ident,
    content: Option<seq<Item>>, semi: Marker)
  datatype ItemStatic = ItemStatic(
    attrs: seq<Attribute>, vis: Visibility, mutability: StaticMutability, ident: Ident, ty: Type, expr: Expr)
  datatype ItemStruct = ItemStruct(
    attrs: seq<Attribute>, vis: Visibility, ident: Ident, generics: Generics, fields: Fields, semiToken: Marker)
  datatype ItemTrait = ItemTrait(
    attrs: seq<Attribute>, vis: Visibility, unsafety: Marker, autoToken: Marker, ident: Ident,
    generics: Generics, colonToken: Marker, supertraits: seq<TypeParamBound>, items: seq<TraitItem>)
  datatype ItemTraitAlias = ItemTraitAlias(
    attrs: seq<Attribute>, vis: Visibility, ident: Ident, generics: Generics, bounds: seq<TypeParamBound>)
  datatype ItemType = ItemType(
    attrs: seq<Attribute>, vis: Visibility, ident: Ident, generics: Generics, ty: Type)
  datatype ItemUnion = ItemUnion(
    attrs: seq<Attribute>, vis: Visibility, ident: Ident, generics: Generics, fields: FieldsNamed)
  datatype ItemUse = ItemUse(attrs: seq<Attribute>, vis: Visibility, leadingColon: Marker, tree: UseTree)

  datatype UseTree =
    | Path(UsePath)
    | Name(UseName)
    | Rename(UseRename)
    | Glob(UseGlob)
    | Group(UseGroup)

  datatype UsePath = UsePath(ident: Ident, tree: UseTree)
  datatype UseName = UseName(ident: Ident)
  datatype UseRename = UseRename(ident: Ident, rename: Ident)
  datatype UseGlob = UseGlob
  datatype UseGroup = UseGroup(items: seq<UseTree>)

  datatype ForeignItem =
    | Fn(ForeignItemFn)
    | Static(ForeignItemStatic)
    | Type(ForeignItemType)
    | Macro(ForeignItemMacro)
    | Verbatim(TokenStream)

  datatype ForeignItemFn = ForeignItemFn(attrs: seq<Attribute>, vis: Visibility, sig: Signature)
  datatype ForeignItemStatic = ForeignItemStatic(
    attrs: seq<Attribute>, vis: Visibility, mutability: StaticMutability, ident: Ident, ty: Type)
  datatype ForeignItemType = ForeignItemType(
    attrs: seq<Attribute>, vis: Visibility, ident: Ident, generics: Generics)
  datatype ForeignItemMacro = ForeignItemMacro(attrs: seq<Attribute>, mac: Macro, semiToken: Marker)

  datatype TraitItem =
    | Const(TraitItemConst)
    | Fn(TraitItemFn)
    | Type(TraitItemType)
    | Macro(TraitItemMacro)
    | Verbatim(TokenStream)

  datatype TraitItemConst = TraitItemConst(
    attrs: seq<Attribute>, ident: Ident, generics: Generics, ty: Type, default: Option<Expr>)
  datatype TraitItemFn = TraitItemFn(
    attrs: seq<Attribute>, sig: Signature, default: Option<Block>, semiToken: Marker)
  datatype TraitItemType = TraitItemType(
    attrs: seq<Attribute>, ident: Ident, generics: Generics, colonToken: Marker,
    bounds: seq<TypeParamBound>, default: Option<Type>)
  datatype TraitItemMacro = TraitItemMacro(attrs: seq<Attribute>, mac: Macro, semiToken: Marker)

  datatype ImplItem =
    | Const(ImplItemConst)
    | Fn(ImplItemFn)
    | Type(ImplItemType)
    | Macro(ImplItemMacro)
    | Verbatim(TokenStream)

  datatype ImplItemConst = ImplItemConst(
    attrs: seq<Attribute>, vis: Visibility, defaultness: Marker, ident: Ident,
    generics: Generics, ty: Type, expr: Expr)
  datatype ImplItemFn = ImplItemFn(
    attrs: seq<Attribute>, vis: Visibility, defaultness: Marker, sig: Signature, block: Block)
  datatype ImplItemType = ImplItemType(
    attrs: seq<Attribute>, vis: Visibility, defaultness: Marker, ident: Ident, generics: Generics, ty: Type)
  datatype ImplItemMacro = ImplItemMacro(attrs: seq<Attribute>, mac: Macro, semiToken: Marker)

  datatype Signature = Signature(
    constness: Marker, asyncness: Marker, unsafety: Marker, abi: Option<Abi>, ident: Ident,
    generics: Generics, inputs: seq<FnArg>, variadic: Option<Variadic>, output: ReturnType)

  datatype FnArg =
    | Receiver(Receiver)
    | Typed(PatType)

  /// `reference` is syn's `Option<(Token![&], Option<Lifetime>)>`: absent,
  /// `&` without a lifetime, or `&'a`.
  datatype Receiver = Receiver(
    attrs: seq<Attribute>, reference: Option<Option<Lifetime>>, mutability: Marker,
    colonToken: Marker, ty: Type)

  datatype Variadic = Variadic(attrs: seq<Attribute>, pat: Option<Pat>, comma: Marker)

  // ---- files -----------------------------------------------------------------

  datatype File = File(shebang: Option<string>, attrs: seq<Attribute>, items: seq<Item>)

  /// syn's `Generics::default()`: no angle brackets, no parameters, no where
  /// clause.
  const NoGenerics: Generics := Generics(None, [], None, None)
}
