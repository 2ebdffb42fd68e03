/**
 * `Expression::get_type` of src/parse/mod.rs: the primitive type of an
 * expression, given the type of every variable.
 *
 * The source takes the variable types as a closure `Fn(&str) -> PrimitiveTy`,
 * so every name has a type; the model takes a total function.  The
 * `assert_eq!` that makes an addition of two different types panic becomes
 * `TypeMismatch`.
 */
module Typing {
  import opened Results
  import opened Tokens
  import opened Ast

  datatype TypeError = TypeMismatch(left: PrimitiveTy, right: PrimitiveTy)

  /**
   * Only an addition can fail, and only on operands of two different
   * types; a variable, a literal, a comparison and an assignment are always
   * typed.
   */
  function GetType(e: Expression, env: string -> PrimitiveTy): (r: Result<PrimitiveTy, TypeError>)
    ensures r.Err? ==> r.error.left != r.error.right
    ensures !(e.Operation? && e.operation.ty == Addition) ==> r.Ok?
  {
    match e
    case Variable(name) => Ok(env(name))
    case Literal(lit) => Ok(lit.ty)
    case Operation(Binary(left, op, right)) =>
      match op
      case Addition =>
        var l :- GetType(left, env);
        var r :- GetType(right, env);
        if l == r then Ok(l) else Err(TypeMismatch(l, r))
      case Greater => Ok(Boolean)
      case Assignment => Ok(Void)
  }

  /**
   * An addition is typed exactly when both operands are typed alike, and
   * then has their type; a failure in the left operand is reported before
   * one in the right, and both before a mismatch.
   */
  lemma AdditionTyping(left: Expression, right: Expression, env: string -> PrimitiveTy)
    ensures var t := GetType(Operation(Binary(left, Addition, right)), env);
      (t.Ok? <==> GetType(left, env).Ok? && GetType(right, env).Ok? && GetType(left, env).value == GetType(right, env).value) &&
      (t.Ok? ==> t.value == GetType(left, env).value) &&
      (GetType(left, env).Err? ==> t == GetType(left, env)) &&
      (GetType(left, env).Ok? && GetType(right, env).Err? ==> t == GetType(right, env)) &&
      (GetType(left, env).Ok? && GetType(right, env).Ok? && GetType(left, env).value != GetType(right, env).value ==>
        t == Err(TypeMismatch(GetType(left, env).value, GetType(right, env).value)))
  {
  }

  /** A comparison is Boolean and an assignment Void, whatever their operands; neither is inspected. */
  lemma OperatorTypes(left: Expression, right: Expression, env: string -> PrimitiveTy)
    ensures GetType(Operation(Binary(left, BinaryOperationTy.Greater, right)), env) == Ok(Boolean)
    ensures GetType(Operation(Binary(left, Assignment, right)), env) == Ok(Void)
  {
  }

  /** The variables whose types `GetType` consults: those reached through additions only. */
  function Consulted(e: Expression): set<string> {
    match e
    case Variable(name) => {name}
    case Literal(_) => {}
    case Operation(Binary(left, op, right)) =>
      if op == Addition then Consulted(left) + Consulted(right) else {}
  }

  /** The type of an expression depends only on the types of the variables it consults. */
  lemma {:induction false} TypeDependsOnConsulted(e: Expression, env1: string -> PrimitiveTy, env2: string -> PrimitiveTy)
    requires forall x :: x in Consulted(e) ==> env1(x) == env2(x)
    ensures GetType(e, env1) == GetType(e, env2)
  {
    match e
    case Variable(_) =>
    case Literal(_) =>
    case Operation(Binary(left, op, right)) =>
      if op == Addition {
        TypeDependsOnConsulted(left, env1, env2);
        TypeDependsOnConsulted(right, env1, env2);
      }
  }

  /**
   * The operands of the outermost sum: an addition tree is flattened, and
   * every other expression is one operand.
   */
  function Summands(e: Expression): seq<Expression> {
    match e
    case Operation(Binary(left, Addition, right)) => Summands(left) + Summands(right)
    case _ => [e]
  }

  /** The type of an expression that is not an addition. */
  function OperandType(e: Expression, env: string -> PrimitiveTy): PrimitiveTy {
    match e
    case Variable(name) => env(name)
    case Literal(lit) => lit.ty
    case Operation(Binary(_, op, _)) => if op == BinaryOperationTy.Greater then Boolean else Void
  }

  predicate AllOfType(es: seq<Expression>, env: string -> PrimitiveTy, t: PrimitiveTy) {
    forall i :: 0 <= i < |es| ==> OperandType(es[i], env) == t
  }

  lemma AllOfTypeConcat(a: seq<Expression>, b: seq<Expression>, env: string -> PrimitiveTy, t: PrimitiveTy)
    ensures AllOfType(a + b, env, t) <==> AllOfType(a, env, t) && AllOfType(b, env, t)
  {
    if AllOfType(a + b, env, t) {
      forall i | 0 <= i < |b| ensures OperandType(b[i], env) == t {
        assert (a + b)[|a| + i] == b[i];
      }
      forall i | 0 <= i < |a| ensures OperandType(a[i], env) == t {
        assert (a + b)[i] == a[i];
      }
    }
  }

  lemma SummandsNonEmpty(e: Expression)
    ensures |Summands(e)| > 0
  {
    match e
    case Operation(Binary(left, Addition, right)) =>
      SummandsNonEmpty(left);
    case _ =>
  }

  /**
   * A sum is typed exactly when all of its operands have one type, which is
   * then its type.
   */
  lemma {:induction false} SumTyping(e: Expression, env: string -> PrimitiveTy)
    ensures |Summands(e)| > 0
    ensures GetType(e, env).Ok? <==> AllOfType(Summands(e), env, OperandType(Summands(e)[0], env))
    ensures GetType(e, env).Ok? ==> GetType(e, env).value == OperandType(Summands(e)[0], env)
  {
    SummandsNonEmpty(e);
    match e
    case Operation(Binary(left, Addition, right)) =>
      SumTyping(left, env);
      SumTyping(right, env);
      SummandsNonEmpty(left);
      SummandsNonEmpty(right);
      var ls, rs := Summands(left), Summands(right);
      assert Summands(e) == ls + rs;
      assert (ls + rs)[0] == ls[0];
      AllOfTypeConcat(ls, rs, env, OperandType(ls[0], env));
      assert AllOfType(rs, env, OperandType(ls[0], env)) <==>
        AllOfType(rs, env, OperandType(rs[0], env)) && OperandType(rs[0], env) == OperandType(ls[0], env);
    case _ =>
  }
}
