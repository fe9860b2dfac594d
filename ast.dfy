/**
 * The compiled form of an expression.  `Expression.getAST` turns the RPN
 * token list into a tree of Java lambdas (`LazyValue` thunks); here the tree
 * is a datatype, and the thunks' bodies are the cases of the interpreter.
 */
module Ast {
  import opened Values
  import opened Tokens

  datatype Expr =
      /** A `LITERAL` token: `new NumericValue(token.surface)` when evaluated. */
    | NumLit(surface: string, tok: Token)
      /** A `HEX_LITERAL` token, `0x` included. */
    | HexLit(surface: string, tok: Token)
      /** A `STRING` token, or the name appended to a call of an unknown function. */
    | StrLit(text: string)
      /** A `VARIABLE` token. */
    | Var(name: string, tok: Token)
      /** A `UNARY_OPERATOR` token. */
    | Unary(uop: UnOp, operand: Expr, tok: Token)
      /** An `OPERATOR` token; `left` is the operand popped second. */
    | Binary(op: BinOp, left: Expr, right: Expr, tok: Token)
      /** A `FUNCTION` token with its arguments, resolved in `Expression.functions`. */
    | Call(fn: Builtin, args: seq<Expr>, tok: Token)
      /** A thunk taken from a variable table and passed on as an argument. */
    | Thunk(b: Binding)

  /** The operators of `Expression.operators`, found when the tree is built. */
  datatype BinOp =
    | And | Or | Then | Def | Assign | AddAssign | Swap
    | Greater | GreaterEq | Less | LessEq | Equals | NotEquals
    | Plus | Minus | Times
      /** `/`, `%`, `^`, `<<`, `>>`, `&`, `|` and `~`: floating-point or bitwise arithmetic. */
    | OtherBinary(surface: string)

  datatype UnOp = Negate | Identity | LogicalNot

  /** The built-in functions of `Expression.functions`, found when the tree is built. */
  datatype Builtin =
    | Dot | Outer | Exit | Return | Throw | Try | If
    | Not | Fact | Max | Min | Relu
    | Print | BoolFn | NumberFn | StrFn | VarFn | Undef | Vars
    | ListFn | While | Loop | MapFn | Filter | First | All | For | Reduce
    | Slice | Range | SortKey
      /** Trigonometry, logarithms, `rand`, `time`, `length`, `sort` and the other library built-ins. */
    | OtherBuiltin(name: string)

  /** The operator a binary surface names. */
  function ResolveBinary(surface: string): (op: BinOp)
    ensures op.OtherBinary? ==> op.surface == surface
  {
    match surface
    case "&&" => And case "||" => Or case ";" => Then case "->" => Def
    case "=" => Assign case "+=" => AddAssign case "<>" => Swap
    case ">" => Greater case ">=" => GreaterEq case "<" => Less case "<=" => LessEq
    case "==" => Equals case "!=" => NotEquals
    case "+" => Plus case "-" => Minus case "*" => Times
    case _ => OtherBinary(surface)
  }

  /** The operator a unary key (`-u`, `+u` or `!u`) names. */
  function ResolveUnary(key: string): Option<UnOp> {
    match key
    case "-u" => Some(Negate) case "+u" => Some(Identity) case "!u" => Some(LogicalNot)
    case _ => None
  }

  /** The built-in a (lower-cased) registered name names. */
  function ResolveBuiltin(name: string): (f: Builtin)
    ensures f.OtherBuiltin? ==> f.name == name
  {
    match name
    case "." => Dot case "outer" => Outer case "exit" => Exit case "return" => Return
    case "throw" => Throw case "try" => Try case "if" => If
    case "not" => Not case "fact" => Fact case "max" => Max case "min" => Min case "relu" => Relu
    case "print" => Print case "bool" => BoolFn case "number" => NumberFn case "str" => StrFn
    case "var" => VarFn case "undef" => Undef case "vars" => Vars
    case "l" => ListFn case "while" => While case "loop" => Loop case "map" => MapFn
    case "filter" => Filter case "first" => First case "all" => All case "for" => For
    case "reduce" => Reduce case "slice" => Slice case "range" => Range case "sort_key" => SortKey
    case _ => OtherBuiltin(name)
  }

  /**
   * What a variable is bound to (a `LazyValue` in a Context map): a value,
   * code that runs each time the variable is read (`x -> body`), or Java's
   * `null`, which a map can hold after a saved binding is put back.
   */
  datatype Binding = Fixed(v: Value) | Code(body: Expr) | Missing

  /**
   * `UserDefinedFunction`, with the `globals` and `code` its `lazyEval`
   * closes over.  `name` is the name of the cloned Expression.
   */
  datatype Udf = Udf(args: seq<string>, globals: seq<string>, body: Expr, name: string, tok: Token)
  {
    /** `numParamsFixed`/`getNumParams`: the positional argument count. */
    function NumParams(): nat {
      |args|
    }
  }

  /** The UserDefinedFunction constructor and its getters. */
  function MakeUdf(args: seq<string>, globals: seq<string>, body: Expr, name: string, tok: Token): (f: Udf)
    ensures f.args == args && f.NumParams() == |args|
    ensures f.body == body && f.tok == tok && f.name == name && f.globals == globals
  {
    Udf(args, globals, body, name, tok)
  }
}
