/**
 * The runtime values of the evaluator, in the shape `src/evaluator.rs` uses them: integers,
 * booleans and null as in `src/object.rs`, plus the return-value wrapper and closures that
 * carry the environment they were created in. Values and environments refer to each other,
 * so the two are one cluster of datatypes.
 */
module Objects {
  import opened Wrappers
  import opened Chars
  import opened Ast

  datatype Object =
    | Integer(number: i64)
    | Boolean(truth: bool)
    | Null
    | ReturnValue(value: Object)
    | Function(parameters: seq<string>, body: BlockStatement, env: Env)

  /** A scope: the names bound in it, and the scope it falls back to. */
  datatype Env = Env(store: map<string, Object>, outer: Option<Env>)

  /** What `type_val` distinguishes: one tag per variant. */
  datatype ObjectType = IntegerType | BooleanType | NullType | ReturnType | FunctionType

  function TypeOf(o: Object): ObjectType
  {
    match o
    case Integer(_) => IntegerType
    case Boolean(_) => BooleanType
    case Null => NullType
    case ReturnValue(_) => ReturnType
    case Function(_, _, _) => FunctionType
  }

  /** The printed type names that are known: those of integers and booleans. */
  function TypeName(t: ObjectType): (name: Option<string>)
    ensures name.Some? <==> t == IntegerType || t == BooleanType
  {
    match t
    case IntegerType => Some("INTEGER")
    case BooleanType => Some("BOOLEAN")
    case _ => None
  }

  /** `is_thruthy`: `false` and `null` are false, a return value is as true as the value it wraps, every other value is true. */
  predicate IsTruthy(o: Object)
  {
    match o
    case Boolean(b) => b
    case Null => false
    case ReturnValue(v) => IsTruthy(v)
    case _ => true
  }

  /** `Display for Object`; the variants `src/object.rs` does not print have no text. */
  function Display(o: Object): Option<string>
  {
    match o
    case Integer(n) => Some(IntToString(n as int))
    case Boolean(b) => Some(if b then "true" else "false")
    case Null => Some("null")
    case _ => None
  }

  /** The words of the booleans and of null. */
  lemma {:induction false} DisplayWords()
    ensures Display(Boolean(true)) == Some("true") && Display(Boolean(false)) == Some("false")
    ensures Display(Null) == Some("null")
  {
  }

  /** The printable values are exactly the integers, the booleans and null. */
  lemma {:induction false} DisplayDefined(o: Object)
    ensures Display(o).Some? <==> (o.Integer? || o.Boolean? || o.Null?)
  {
  }

  /** An integer prints as its decimal form: a `-` exactly when negative, then the digits of its magnitude. */
  lemma {:induction false} DisplayInteger(n: i64)
    ensures var s := Display(Integer(n)).value;
      && |s| > 0
      && (s[0] == '-' <==> n < 0)
      && (n < 0 ==> AllDigits(s[1..]) && DecimalValue(s[1..]) == -(n as int))
      && (n >= 0 ==> AllDigits(s) && DecimalValue(s) == n as int)
  {
    IntToStringRoundTrip(n as int);
  }

  /** Two printable values with the same text are the same value. */
  lemma {:induction false} DisplayInjective(a: Object, b: Object)
    requires Display(a).Some? && Display(a) == Display(b)
    ensures a == b
  {
    if a.Integer? {
      IntegerTextIsNumeral(a.number);
    }
    if b.Integer? {
      IntegerTextIsNumeral(b.number);
    }
    if a.Integer? && b.Integer? {
      DisplayInteger(a.number);
      DisplayInteger(b.number);
    }
  }

  /** The text of an integer starts with `-` or a digit, so it never spells a boolean or null. */
  lemma {:induction false} IntegerTextIsNumeral(n: i64)
    ensures var s := Display(Integer(n)).value; |s| > 0 && (s[0] == '-' || IsDigit(s[0]))
  {
    IntToStringRoundTrip(n as int);
  }
}
