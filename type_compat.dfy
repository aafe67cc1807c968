/** `HelperMixin.type_compatible`: whether a runtime value may fill a column of
    a declared type. */
module TypeCheck {
  import opened Values

  /** `type(value)`, when it is one of the types a column type can report;
      `None` for `NoneType`, entity classes, `dict` and `list`. */
  function TypeOf(v: Value): Option<PythonType>
  {
    match v
    case Bool(_) => Some(BoolType)
    case Int(_) => Some(IntType)
    case Float(_) => Some(FloatType)
    case Decimal(_) => Some(DecimalType)
    case Str(_) => Some(StrType)
    case DateTime(_) => Some(DateTimeType)
    case _ => None
  }

  /** `issubclass(a, b)` among the column Python types: `bool` is the one
      proper subclass, of `int`. */
  predicate IsSubclass(a: PythonType, b: PythonType)
  {
    a == b || (a == BoolType && b == IntType)
  }

  /** `isinstance(v, t)`. */
  predicate IsInstance(v: Value, t: PythonType)
  {
    TypeOf(v).Some? && IsSubclass(TypeOf(v).value, t)
  }

  /** The exact types each column Python type admits, as a table: the
      reference the ordered decision procedure below is proved against. */
  function Admits(t: PythonType): set<PythonType>
  {
    match t
    case StrType => {StrType}
    case IntType => {IntType, BoolType}
    case FloatType => {FloatType, IntType}
    case DecimalType => {DecimalType, FloatType, IntType}
    case BoolType => {BoolType}
    case DateTimeType => {DateTimeType}
  }

  /** The ordered chain of guarded returns of `type_compatible`. */
  function TypeCompatible(v: Value, ct: ColumnType): (r: bool)
    ensures r <==> v.Null? || ct.Untyped? || (TypeOf(v).Some? && TypeOf(v).value in Admits(ct.py))
  {
    if v.Null? then true
    else if ct.Untyped? then true
    else if IsInstance(v, ct.py) then true
    else if ct.py == DecimalType then TypeOf(v) in {Some(FloatType), Some(IntType)}
    else if IsSubclass(ct.py, StrType) then IsInstance(v, StrType)
    else if ct.py == IntType then TypeOf(v) in {Some(IntType)}
    else if ct.py == FloatType then TypeOf(v) in {Some(FloatType), Some(IntType)}
    else if ct.py == BoolType then TypeOf(v) in {Some(BoolType)}
    else false
  }

  /** `None` is compatible with every declared column type. */
  lemma NullAlwaysCompatible(ct: ColumnType)
    ensures TypeCompatible(Null, ct)
  {
  }

  /** A column type without `python_type` accepts every value, and a value
      that is an instance of the column's Python type is accepted; in
      particular a `bool` passes an `Integer` column. */
  lemma InstancesAreCompatible(v: Value, t: PythonType)
    ensures TypeCompatible(v, Untyped)
    ensures IsInstance(v, t) ==> TypeCompatible(v, Typed(t))
    ensures TypeCompatible(Bool(true), Typed(IntType)) && TypeCompatible(Bool(false), Typed(IntType))
  {
  }

  /** A `Boolean` column accepts only `bool` (and `None`): the integer 1 is
      rejected. */
  lemma BooleanColumnIsStrict(v: Value)
    ensures TypeCompatible(v, Typed(BoolType)) <==> v.Null? || v.Bool?
    ensures !TypeCompatible(Int(1), Typed(BoolType)) && TypeCompatible(Bool(true), Typed(BoolType))
  {
  }

  /** An `Integer` column accepts `int` and `bool` (and `None`) and rejects
      floats such as 3.0. */
  lemma IntegerColumnRejectsFloat(v: Value)
    ensures TypeCompatible(v, Typed(IntType)) <==> v.Null? || v.Int? || v.Bool?
    ensures !TypeCompatible(Float(3.0), Typed(IntType)) && TypeCompatible(Int(3), Typed(IntType))
  {
  }

  /** `Float` and `Numeric` columns widen to accept integers; a `Numeric`
      column also accepts floats, but a `Float` column does not accept a
      `Decimal`, and neither accepts a `bool`, whose exact type is not `int`. */
  lemma NumericWidening(v: Value)
    ensures TypeCompatible(v, Typed(FloatType)) <==> v.Null? || v.Int? || v.Float?
    ensures TypeCompatible(v, Typed(DecimalType)) <==> v.Null? || v.Int? || v.Float? || v.Decimal?
    ensures TypeCompatible(Int(3), Typed(FloatType)) && TypeCompatible(Float(3.5), Typed(FloatType))
  {
  }

  /** String columns accept strings only; a column whose Python type matches
      none of the special cases (`datetime`) accepts only its own instances. */
  lemma OtherColumnsAreExact(v: Value)
    ensures TypeCompatible(v, Typed(StrType)) <==> v.Null? || v.Str?
    ensures TypeCompatible(v, Typed(DateTimeType)) <==> v.Null? || v.DateTime?
  {
  }

  /** A value that fills a column with a known Python type is `None` or a
      scalar: never an entity, a dict or a list. */
  lemma TypedColumnsHoldScalars(v: Value, t: PythonType)
    requires TypeCompatible(v, Typed(t))
    ensures v.Null? || TypeOf(v).Some?
  {
  }
}
