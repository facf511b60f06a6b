/**
 * The vocabulary shared by the whole model: state and operation names, the
 * errors the mixin can raise, and a small language for the bodies of the
 * operations that classes and state blocks define.
 *
 * The mixin itself never looks inside an operation body; it only decides WHICH
 * body runs. The expression language exists so that the concrete scenario of
 * the test suite (`add` as +, -, * and %, `outer`, `helper`, `use_helper`) can be
 * stated and checked.
 */
module Behaviour {
  import opened Wrappers

  /** A state name as passed to `state` / `change_state!` (Ruby Symbol). */
  type Name = string

  /** An operation (method) name. */
  type OpName = string

  datatype Error =
    | InvalidStateError(state: Name)   // change_state! with an undeclared name
    | NoMethodError(op: OpName)        // nobody responds to the call
    | ArgumentError                    // a body reads an argument that was not passed
    | ZeroDivisionError                // `%` by zero
    | SystemStackError                 // self-calls nested deeper than STACK_DEPTH

  datatype BinOp = Add | Sub | Mul | Mod

  /** The body of an operation. `SelfCall(op)` calls another method of the receiver. */
  datatype Expr =
    | Lit(n: int)
    | Arg(i: nat)
    | Bin(op: BinOp, left: Expr, right: Expr)
    | SelfCall(callee: OpName)

  /** The receiver's method table: which body answers which name. */
  type Scope = map<OpName, Expr>

  /** How deep self-calls may nest before the interpreter gives up. */
  const STACK_DEPTH: nat := 10000

  /** Ruby's Integer#%: the remainder takes the sign of the divisor. */
  function FloorMod(x: int, y: int): (r: int)
    requires y != 0
    ensures y > 0 ==> 0 <= r < y
    ensures y < 0 ==> y < r <= 0
    ensures r == x % y || r == x % y + y
  {
    var m := x % y;
    if y < 0 && m != 0 then m + y else m
  }

  function Apply(op: BinOp, x: int, y: int): (r: Result<int, Error>)
    ensures r.Err? <==> op == Mod && y == 0
  {
    match op
    case Add => Ok(x + y)
    case Sub => Ok(x - y)
    case Mul => Ok(x * y)
    case Mod => if y == 0 then Err(ZeroDivisionError) else Ok(FloorMod(x, y))
  }

  /** Runs `e` with arguments `args` on a receiver whose methods are `scope`. */
  function Eval(e: Expr, args: seq<int>, scope: Scope, fuel: nat): Result<int, Error>
    decreases fuel, e
  {
    match e
    case Lit(n) => Ok(n)
    case Arg(i) => if i < |args| then Ok(args[i]) else Err(ArgumentError)
    case Bin(op, l, r) =>
      var x := Eval(l, args, scope, fuel);
      var y := Eval(r, args, scope, fuel);
      if x.Err? then x
      else if y.Err? then y
      else Apply(op, x.value, y.value)
    case SelfCall(callee) =>
      if callee !in scope then Err(NoMethodError(callee))
      else if fuel == 0 then Err(SystemStackError)
      else Eval(scope[callee], [], scope, fuel - 1)
  }

  /**
   * The depth limit only ever turns a call into `SystemStackError`: any other
   * result stays the same under every larger limit.
   */
  lemma {:induction false} EvalDepth(e: Expr, args: seq<int>, scope: Scope, f: nat, g: nat)
    requires f <= g && Eval(e, args, scope, f) != Err(SystemStackError)
    ensures Eval(e, args, scope, g) == Eval(e, args, scope, f)
    decreases f, e
  {
    match e
    case Lit(_) =>
    case Arg(_) =>
    case Bin(_, l, r) =>
      EvalDepth(l, args, scope, f, g);
      if Eval(l, args, scope, f).Ok? {
        EvalDepth(r, args, scope, f, g);
      }
    case SelfCall(callee) =>
      if callee in scope {
        EvalDepth(scope[callee], [], scope, f - 1, g - 1);
      }
  }
}
