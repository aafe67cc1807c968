/** The data the helper layer of the smart-home portal works on.

    SQLAlchemy reflection is replaced by an explicit entity descriptor: the
    ordered column list (`self.__mapper__.columns`), and the attribute map
    (`self.__dict__`, read by `getattr`). Numbers are tagged abstract values:
    only their Python type matters to the layer. */
module Values {

  datatype Option<+T> = None | Some(value: T)

  /** The Python types a column type can report through `python_type`.
      Python 2's `str`, `unicode` and `basestring` are one `StrType`; `int` and
      `long` are one `IntType`. */
  datatype PythonType = StrType | IntType | FloatType | DecimalType | BoolType | DateTimeType

  /** A declared column type: either it has no `python_type` at all, or it
      reports one. */
  datatype ColumnType = Untyped | Typed(py: PythonType)

  datatype Column = Column(name: string, ty: ColumnType)

  /** A runtime Python value as the helper layer sees it. `Obj` is an instance
      of an entity class (every entity class mixes in the helper layer), `Dict`
      is a plain Python dict (what the projections build), `List` a plain list
      (what a one-to-many relationship such as a backref holds). */
  datatype Value =
    | Null
    | Bool(b: bool)
    | Int(i: int)
    | Float(f: real)
    | Decimal(d: real)
    | Str(s: string)
    | DateTime(stamp: int)
    | Obj(entity: Entity)
    | Dict(fields: map<string, Value>)
    | List(items: seq<Value>)

  /** An entity instance: its table, its declared columns in mapper order, and
      its instance attributes. Being an inductive value, an entity can never
      reach itself through its attributes: the object graph is acyclic by
      construction, which the Python code assumes without checking. */
  datatype Entity = Entity(table: string, columns: seq<Column>, attrs: map<string, Value>)

  /** The exceptions the layer raises. `InvalidParameter` carries what its
      message is formatted from: the column name, the value and the column
      type. `IndexError` is what `k[0]` raises on an empty attribute name. */
  datatype Error =
    | InvalidParameter(column: string, value: Value, columnType: ColumnType)
    | IndexError

  datatype Result<+T> = Success(value: T) | Failure(error: Error)

  datatype Outcome = Pass | Fail(error: Error)

  /** `getattr(entity, name)` for a mapped attribute: an attribute that was
      never assigned reads as `None`. */
  function Get(e: Entity, name: string): Value
  {
    if name in e.attrs then e.attrs[name] else Null
  }

  /** `name.startswith('_')`: the names both projections skip. */
  predicate Private(name: string)
  {
    |name| > 0 && name[0] == '_'
  }

  /** The keys of the column collection, `self.__mapper__.columns.keys()`. */
  function Keys(columns: seq<Column>): seq<string>
  {
    seq(|columns|, i requires 0 <= i < |columns| => columns[i].name)
  }
}
