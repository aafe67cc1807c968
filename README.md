# Smart-home portal: the entity helper layer

The web portal for the smart-home gateway keeps its devices, sensor readings,
users and gateways in SQLAlchemy entity classes. Every entity class mixes in
`HelperMixin` (`smarthome-web-portal/DB/models.py`). This mixin is the portal's
one piece of generic logic:

- `type_compatible` is the rule that decides whether a runtime value may fill
  a column of a declared type.
- `validate` checks every declared column of an instance against that rule
  and raises `InvalidParameter` on the first column that fails.
- `to_dict` projects the declared columns into a flat dict.
- `join_to_dict` projects every public instance attribute. A nested entity is
  replaced by that entity's `to_dict()`.
- `join_to_dict_recurse` does the same, but expands every nested entity with
  itself, to any depth.

Only an attribute that holds an entity itself is expanded. A list-valued
attribute, such as a loaded one-to-many relationship (`gateway.user` from the
backref at models.py:135, or `sensor_type.resource` from models.py:430),
passes through `join_to_dict` and `join_to_dict_recurse` unchanged, with the
entities inside it unexpanded, because a list is not a `HelperMixin`
(models.py:104, 121).

The model replaces SQLAlchemy's reflection with an explicit descriptor. An
`Entity` has a table name, an ordered column list (`__mapper__.columns`) and
an attribute map (`__dict__`, read by `getattr`). A `Value` is one of `None`,
a bool, an int, a float, a `Decimal`, a string, a datetime, a nested entity,
a dict or a list. Numbers are tagged values, because `type_compatible` looks
only at their Python type.

Modules:

- `Values` (values.dfy) holds the data model, `getattr` (`Get`) and the
  `startswith('_')` test (`Private`).
- `TypeCheck` (type_compat.dfy) holds `type_compatible`. It is written as the
  source's ordered chain of guarded returns and proved equal to a table,
  `Admits`, that lists which exact types each column type accepts. A bool
  passes an `Integer` column through the `isinstance` test (models.py:55),
  since `bool` is a subclass of `int`. A `Float` column instead tests
  `type(value) in [float, int]` (models.py:64-65), and the exact type of a
  bool is `bool`, so a `Float` column rejects it; so does a `Decimal` column
  (models.py:58-59).
- `Validation` (validate.dfy) holds `validate`. It is a loop method proved
  against the predicate `Valid` and the first-failure rule.
- `Projection` (projection.dfy) holds the three projections. Each is a loop
  method, as in the source. Each is proved equal to a function of the
  entity: `ToDictOf`, `JoinedView` or `DeepView`.
- `ProjectionFacts` (projection_facts.dfy) proves what the projections
  promise: their key sets and values, nesting depth one for
  `join_to_dict`, full expansion for `join_to_dict_recurse` of entity-valued attributes,
  lists passed through unchanged, and when each
  one fails.
- `Schema` (schema.dfy) describes the eighteen entity classes as
  descriptors: their column lists, their constructors' keyword parameters
  and defaults. It uses them for worked scenarios.

Three assumptions about the library are built into the descriptors:

- The MySQL `DOUBLE(precision=20, scale=15)` column of `Temperature` reports
  `Decimal` as its Python type (the dialect's `asdecimal` default).
- The mapper lists the inherited `id` and `created_at` columns first, then a
  class's own columns in declaration order.
- An attribute that was never assigned reads as `None`.

Entities are inductive values, so an object graph cannot contain a cycle.
The source assumes this and never checks it. On a cyclic graph each level of
`join_to_dict_recurse` is an ordinary method call (models.py:122), so the
source ends with Python's `RuntimeError` (maximum recursion depth exceeded).

## Model

| member | source | states |
|---|---|---|
| TypeCheck.TypeCompatible | smarthome-web-portal/DB/models.py:49-68 | The ordered chain accepts a value exactly when it is `None`, the column has no Python type, or the value's exact type is in the column type's `Admits` table. |
| TypeCheck.NullAlwaysCompatible | smarthome-web-portal/DB/models.py:50-51 | `None` is compatible with every column type. |
| TypeCheck.InstancesAreCompatible | smarthome-web-portal/DB/models.py:52-56 | A column type without `python_type` accepts every value. Any instance of the column's Python type is accepted, so a `bool` passes an `Integer` column (bool is a subclass of int). |
| TypeCheck.BooleanColumnIsStrict | smarthome-web-portal/DB/models.py:66-67 | A `Boolean` column accepts exactly `None` and bools. The integer 1 is rejected and `True` is accepted. |
| TypeCheck.IntegerColumnRejectsFloat | smarthome-web-portal/DB/models.py:55-63 | An `Integer` column accepts exactly `None`, ints and bools. 3.0 is rejected and 3 is accepted. |
| TypeCheck.NumericWidening | smarthome-web-portal/DB/models.py:57-65 | A `Float` column accepts exactly `None`, ints (a `long` too, unlike the source) and floats. A `Decimal` column also accepts decimals. Neither accepts a bool. |
| TypeCheck.OtherColumnsAreExact | smarthome-web-portal/DB/models.py:60-68 | A string column accepts exactly `None` and strings. A datetime column, which no special case covers, accepts exactly `None` and datetimes. |
| TypeCheck.TypedColumnsHoldScalars | smarthome-web-portal/DB/models.py:49-68 | A value accepted by a column with a Python type is `None` or a scalar, never an entity, dict or list. |
| Validation.Validate | smarthome-web-portal/DB/models.py:70-78 | Passes exactly when every column is compatible. Otherwise it fails with the `InvalidParameter` of a column that is incompatible while every earlier column is compatible. |
| Validation.FirstRejectionUnique | smarthome-web-portal/DB/models.py:72-78 | The first incompatible column is unique, so the column named by the error is determined. |
| Projection.ColumnViewAt | smarthome-web-portal/DB/models.py:80-91 | After visiting some keys, a key is in the dict iff it was visited, is public and holds a non-`None` value. Its entry is that value, rendered. |
| Projection.ToDictShape | smarthome-web-portal/DB/models.py:80-91 | The keys of `to_dict` are the declared column names that are public and not `None`, and all of them are present. No entry is `None`. A datetime becomes `format_datetime` of it, and any other value passes unchanged. |
| Projection.ToDict | smarthome-web-portal/DB/models.py:80-91 | The loop over the column keys builds exactly `ToDictOf`. |
| Projection.PublicAttributes | smarthome-web-portal/DB/models.py:94-95 | The `k[0] == '_'` comprehension raises `IndexError` iff some attribute name is empty. Otherwise it yields exactly the attributes whose name does not start with `_`. |
| Projection.JoinToDict | smarthome-web-portal/DB/models.py:93-108 | The loop builds exactly `JoinedView`: `IndexError` on an empty name, otherwise the public non-`None` attributes with entities replaced by their `to_dict()`. |
| Projection.JoinToDictRecurse | smarthome-web-portal/DB/models.py:110-125 | The recursive loop builds exactly `DeepView`: every nested entity is replaced by its own result, and any failure inside propagates. |
| ProjectionFacts.ValidatedColumnsAreScalar | smarthome-web-portal/DB/models.py:70-78 | On an entity that passes `validate` and whose column types all report a Python type, every column holds `None` or a scalar. |
| ProjectionFacts.ToDictIsFlat | smarthome-web-portal/DB/models.py:80-91 | `to_dict` of an entity whose columns hold scalars has only scalar values. |
| ProjectionFacts.JoinToDictShape | smarthome-web-portal/DB/models.py:93-108 | `join_to_dict` fails iff some attribute name is empty. Otherwise its keys are exactly the public non-`None` attributes. An entity becomes its `to_dict()`, a datetime its formatted string, and anything else is kept. |
| ProjectionFacts.JoinToDictOneLevel | smarthome-web-portal/DB/models.py:104-105 | When every public attribute is `None`, a scalar or an entity, and every such entity has scalar columns, every value of `join_to_dict` is a scalar or a flat dict: nesting depth is at most one, whatever further relations the nested entities hold. A list attribute is outside this hypothesis. |
| ProjectionFacts.ListsPassThrough | smarthome-web-portal/DB/models.py:100-106 | A public list-valued attribute appears unchanged in a successful `join_to_dict` and in a successful `join_to_dict_recurse`: the entities inside the list are not expanded. |
| ProjectionFacts.JoinToDictRecurseShape | smarthome-web-portal/DB/models.py:110-125 | On success, `join_to_dict_recurse` has the same keys as `join_to_dict`. Each nested entity becomes its own successful `join_to_dict_recurse` result, and other values are rendered as in `join_to_dict`. |
| ProjectionFacts.RecurseAgreesWithJoinWhenFlat | smarthome-web-portal/DB/models.py:110-125 | With no entity-valued public attribute, the two join variants give the same result, failure included. |
| ProjectionFacts.RecurseSucceedsIffWellNamed | smarthome-web-portal/DB/models.py:111-122 | `join_to_dict_recurse` succeeds iff no entity it reaches has an empty attribute name. |
| ProjectionFacts.RecurseExpandsEverything | smarthome-web-portal/DB/models.py:121-123 | On a graph of scalars and entities, the result of `join_to_dict_recurse` contains no unexpanded entity at any depth. |
| Schema.AssignAt | smarthome-web-portal/DB/models.py:137-140 | After a constructor's assignments, an attribute is set iff some parameter is assigned to it, and it holds that parameter's argument or default. |
| Schema.ParamsAssignDistinctAttributes | smarthome-web-portal/DB/models.py:448-449 | No two parameters of one constructor assign the same attribute, including `SensorType`'s `sensor_type` stored as `type`. |
| Schema.NewAttributes | smarthome-web-portal/DB/models.py:137-449 | A new instance has exactly its parameters' attributes. Each holds its keyword argument or, without one, its default (`False` for a gateway's status). |
| Schema.ConstructorsAssignColumns | smarthome-web-portal/DB/models.py:128-140 | Every constructor parameter of every class is assigned to a declared, public column. |
| Schema.FreshInstanceValidates | smarthome-web-portal/DB/models.py:398-414 | A new instance whose arguments suit their columns passes `validate`. Unset `id` and `created_at` read as `None`, and the gateway's `False` default suits its `Boolean` column. |
| Schema.NewWithEveryArgument | smarthome-web-portal/DB/models.py:154-157 | A constructor given every keyword (outside `SensorType`) makes an instance whose attributes are exactly its arguments. |
| Schema.FreshToDict | smarthome-web-portal/DB/models.py:80-91 | `to_dict` of a new instance shows exactly the attributes its constructor set to non-`None` values, rendered. |
| Schema.GatewayStatusDefaultsToFalse | smarthome-web-portal/DB/models.py:408-414 | A gateway built without arguments has status `False`, and its `to_dict()` is exactly `{"status": False}`. |
| Schema.FanToDict | smarthome-web-portal/DB/models.py:147-157 | For any status, uuid and gateway id, a fan's `to_dict()` is exactly those three fields, before persistence adds `id` and `created_at`. |
| Schema.IntegerStatusRejectedAtStatus | smarthome-web-portal/DB/models.py:147-157 | In a fan whose status is the integer 1, the columns before `status` are compatible and `status` is not. |
| Schema.RejectIntegerStatus | smarthome-web-portal/DB/models.py:70-78 | `validate` on that fan fails with `InvalidParameter` naming `status`, the value 1 and the `Boolean` type. |
| Schema.ResourceRelationIsNoColumn | smarthome-web-portal/DB/models.py:421-430 | A resource's `sensor_type` relationship is not one of its columns. |
| Schema.ChainJoinStopsAtOneLevel | smarthome-web-portal/DB/models.py:93-108 | `join_to_dict` on a fan holding a resource shows the resource as its `to_dict()`, which omits the resource's `sensor_type` relationship. |
| Schema.ChainSensorTypeDeep | smarthome-web-portal/DB/models.py:443-449 | A sensor type with no entity attribute projects to exactly its two columns. |
| Schema.ChainRecurseExpandsDepthTwo | smarthome-web-portal/DB/models.py:121-122 | `join_to_dict_recurse` on the same fan expands the resource and, inside it, the sensor type, at depth two. |

## Left out

- `JSONEncoded` (models.py:25-38) is left out. It only forwards to `json.dumps` and `json.loads`, which are not part of this model.
- `DefaultMixin` value generation is left out. The database assigns `id`, and `created_at` comes from the wall clock through `util.get_utc_now`. A new instance therefore has neither, and both read as `None`.
- The SQLAlchemy mapping is not modelled: foreign keys, cascades, indexes, `nullable`, relationship loading and lazy loads. A loaded relationship appears only as an attribute value.
- `__repr__` of every class is left out. It formats a debugging string and promises nothing.
- `initialize` and `update` (models.py:42-46) do nothing, so they are not modelled.
- Float and `Decimal` arithmetic is left out. Numbers are tagged values, because only their type matters here.
- Python 2's `str`/`unicode`/`basestring` distinction is collapsed to one string type, and `int`/`long` to one integer type.
- TypeCheck.NumericWidening: with `int` and `long` merged, `Float` and `Decimal` columns accept every integer. The source tests `type(value) in [float, int]` (models.py:59, 65), so it rejects a `long` (such as `5L`, or an int that overflowed past the machine word), which an `Integer` column accepts (models.py:63).
- Validation.Validate: the exception carries the column name, the value and the column type as fields. The message text formatted from them with `%r` is not modelled.
- `util.format_datetime` is not part of this model. Every projection takes it as a parameter `fmt`.
- Cyclic object graphs cannot be represented, because `Entity` is inductive; the `RuntimeError` the source raises on one (recursion limit reached through models.py:122) is not modelled.
- Constructors are modelled with keyword arguments only. Positional calls and unknown keywords (a `TypeError` in Python) are not modelled.
- VARCHAR lengths are not modelled: `type_compatible` does not check them.
- The order in which Python iterates a dict is not modelled: the projections' results are maps, and the join loops visit keys in an arbitrary order.
