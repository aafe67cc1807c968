/** The concrete entity classes as static descriptors: their declared
    columns, in mapper order, and what their constructors assign. */
module Schema {
  import opened Values
  import opened TypeCheck
  import opened Validation
  import opened Projection
  import ProjectionFacts

  /** The mapped classes. `SmsHistroy` keeps the class's own spelling; its
      table is `sms_history`. */
  datatype Kind =
    | User | Fan | Button | Temperature | Rgbled | Led | Buzzer | Illuminance | Motion
    | Gas | Solar | Power | Energy | EventLog | SmsHistroy | Gateway | Resource | SensorType

  /* The column types used by the classes, by the Python type each reports. */
  const Varchar: ColumnType := Typed(StrType)
  const Integer: ColumnType := Typed(IntType)
  const Boolean: ColumnType := Typed(BoolType)
  const FloatColumn: ColumnType := Typed(FloatType)
  /** MySQL `DOUBLE(precision=20, scale=15)`, which converts to `Decimal`. */
  const Double: ColumnType := Typed(DecimalType)
  const DateTimeColumn: ColumnType := Typed(DateTimeType)

  /** The `__tablename__` of each class. */
  function TableName(k: Kind): string
  {
    match k
    case User => "user"
    case Fan => "fan"
    case Button => "button"
    case Temperature => "temperature"
    case Rgbled => "rgbled"
    case Led => "led"
    case Buzzer => "buzzer"
    case Illuminance => "illuminance"
    case Motion => "motion"
    case Gas => "gas"
    case Solar => "solar"
    case Power => "power"
    case Energy => "energy"
    case EventLog => "eventlog"
    case SmsHistroy => "sms_history"
    case Gateway => "gateway"
    case Resource => "resource"
    case SensorType => "sensor_type"
  }

  /** The declared columns of each class, in mapper order: the `id` and
      `created_at` columns every class but `SensorType` inherits come first,
      then the class's own columns as declared. */
  function Columns(k: Kind): seq<Column>
  {
    match k
    case User =>
      [Column("id", Integer), Column("created_at", DateTimeColumn), Column("username", Varchar),
       Column("password", Varchar), Column("phone", Varchar), Column("gateway_id", Integer)]
    case Fan =>
      [Column("id", Integer), Column("created_at", DateTimeColumn), Column("uuid", Varchar),
       Column("status", Boolean), Column("gateway_id", Integer)]
    case Button =>
      [Column("id", Integer), Column("created_at", DateTimeColumn), Column("uuid", Varchar),
       Column("status", Boolean), Column("gateway_id", Integer)]
    case Temperature =>
      [Column("id", Integer), Column("created_at", DateTimeColumn), Column("uuid", Varchar),
       Column("temperature", Double), Column("units", Varchar), Column("range", Varchar),
       Column("gateway_id", Integer)]
    case Rgbled =>
      [Column("id", Integer), Column("created_at", DateTimeColumn), Column("uuid", Varchar),
       Column("rgbvalue", Varchar), Column("range", Varchar), Column("gateway_id", Integer)]
    case Led =>
      [Column("id", Integer), Column("created_at", DateTimeColumn), Column("uuid", Varchar),
       Column("status", Boolean), Column("gateway_id", Integer)]
    case Buzzer =>
      [Column("id", Integer), Column("created_at", DateTimeColumn), Column("uuid", Varchar),
       Column("status", Boolean), Column("gateway_id", Integer)]
    case Illuminance =>
      [Column("id", Integer), Column("created_at", DateTimeColumn), Column("uuid", Varchar),
       Column("illuminance", FloatColumn), Column("gateway_id", Integer)]
    case Motion =>
      [Column("id", Integer), Column("created_at", DateTimeColumn), Column("uuid", Varchar),
       Column("status", Boolean), Column("gateway_id", Integer)]
    case Gas =>
      [Column("id", Integer), Column("created_at", DateTimeColumn), Column("uuid", Varchar),
       Column("status", Boolean), Column("gateway_id", Integer)]
    case Solar =>
      [Column("id", Integer), Column("created_at", DateTimeColumn), Column("uuid", Varchar),
       Column("status", Boolean), Column("gateway_id", Integer), Column("tiltpercentage", FloatColumn),
       Column("lcd_first", Varchar), Column("lcd_second", Varchar)]
    case Power =>
      [Column("id", Integer), Column("created_at", DateTimeColumn), Column("uuid", Varchar),
       Column("value", Integer), Column("gateway_id", Integer)]
    case Energy =>
      [Column("id", Integer), Column("created_at", DateTimeColumn), Column("uuid", Varchar),
       Column("value", Integer), Column("gateway_id", Integer)]
    case EventLog =>
      [Column("id", Integer), Column("created_at", DateTimeColumn), Column("type", Varchar),
       Column("data", Varchar), Column("response_code", Integer)]
    case SmsHistroy =>
      [Column("id", Integer), Column("created_at", DateTimeColumn), Column("gateway_id", Integer),
       Column("uuid", Varchar)]
    case Gateway =>
      [Column("id", Integer), Column("created_at", DateTimeColumn), Column("name", Varchar),
       Column("url", Varchar), Column("address", Varchar), Column("latitude", Varchar),
       Column("longitude", Varchar), Column("status", Boolean)]
    case Resource =>
      [Column("id", Integer), Column("created_at", DateTimeColumn), Column("uuid", Varchar),
       Column("sensor_type_id", Integer), Column("status", Boolean), Column("gateway_id", Integer),
       Column("path", Varchar)]
    case SensorType =>
      [Column("id", Integer), Column("type", Varchar)]
  }

  /** The keyword parameters of each class's constructor, in the order the
      constructor assigns them. */
  function Params(k: Kind): seq<string>
  {
    match k
    case User => ["username", "password", "gateway_id"]
    case Fan => ["status", "uuid", "gateway_id"]
    case Button => ["status", "uuid", "gateway_id"]
    case Temperature => ["temperature", "units", "range", "uuid", "gateway_id"]
    case Rgbled => ["rgbvalue", "range", "uuid", "gateway_id"]
    case Led => ["status", "uuid", "gateway_id"]
    case Buzzer => ["status", "uuid", "gateway_id"]
    case Illuminance => ["illuminance", "uuid", "gateway_id"]
    case Motion => ["status", "uuid", "gateway_id"]
    case Gas => ["status", "uuid", "gateway_id"]
    case Solar => ["status", "uuid", "gateway_id", "tiltpercentage", "lcd_first", "lcd_second"]
    case Power => ["value", "uuid", "gateway_id"]
    case Energy => ["value", "uuid", "gateway_id"]
    case EventLog => ["type", "data", "response_code"]
    case SmsHistroy => ["uuid", "gateway_id"]
    case Gateway => ["name", "url", "address", "latitude", "longitude", "status"]
    case Resource => ["uuid", "sensor_type_id", "path", "status"]
    case SensorType => ["sensor_type"]
  }

  /** The attribute a parameter is assigned to: its own name, except that
      `SensorType` stores `sensor_type` as `type`. */
  function AttrOf(k: Kind, keyword: string): string
  {
    if k == SensorType && keyword == "sensor_type" then "type" else keyword
  }

  /** The default of a parameter: `None`, except `False` for the status of a
      `Gateway`. */
  function DefaultOf(k: Kind, keyword: string): Value
  {
    if k == Gateway && keyword == "status" then Bool(false) else Null
  }

  /** The value a parameter receives: the keyword argument, or its default. */
  function Argument(k: Kind, keyword: string, args: map<string, Value>): Value
  {
    if keyword in args then args[keyword] else DefaultOf(k, keyword)
  }

  /** The attributes after the constructor's assignments to `keywords`,
      made in order. */
  function Assign(k: Kind, keywords: seq<string>, args: map<string, Value>): map<string, Value>
  {
    if keywords == [] then map[]
    else
      var last := keywords[|keywords| - 1];
      Assign(k, keywords[..|keywords| - 1], args)[AttrOf(k, last) := Argument(k, last, args)]
  }

  /** A call of the class's constructor with keyword arguments (an unknown
      keyword is a `TypeError` in the caller): a new instance, with no
      identifier and no creation time yet. */
  function New(k: Kind, args: map<string, Value>): Entity
    requires forall a :: a in args ==> a in Params(k)
  {
    Entity(TableName(k), Columns(k), Assign(k, Params(k), args))
  }

  /** The constructor sets exactly the attributes of its parameters, each to
      some parameter's argument or default. */
  lemma {:induction false} AssignAt(k: Kind, keywords: seq<string>, args: map<string, Value>, a: string)
    ensures a in Assign(k, keywords, args) <==> exists kw :: kw in keywords && AttrOf(k, kw) == a
    ensures a in Assign(k, keywords, args) ==>
      exists kw :: kw in keywords && AttrOf(k, kw) == a && Assign(k, keywords, args)[a] == Argument(k, kw, args)
  {
    if keywords != [] {
      var prefix := keywords[..|keywords| - 1];
      assert keywords == prefix + [keywords[|keywords| - 1]];
      AssignAt(k, prefix, args, a);
    }
  }

  /** Within one constructor no two parameters share an attribute. */
  lemma ParamsAssignDistinctAttributes(k: Kind, kw1: string, kw2: string)
    requires kw1 in Params(k) && kw2 in Params(k) && AttrOf(k, kw1) == AttrOf(k, kw2)
    ensures kw1 == kw2
  {
  }

  /** `__init__` gives the new instance exactly the attributes of its
      parameters, each holding its keyword argument or, without one, its
      default. */
  lemma NewAttributes(k: Kind, args: map<string, Value>)
    requires forall a :: a in args ==> a in Params(k)
    ensures forall a :: a in New(k, args).attrs <==> exists kw :: kw in Params(k) && AttrOf(k, kw) == a
    ensures forall kw :: kw in Params(k) ==> New(k, args).attrs[AttrOf(k, kw)] == Argument(k, kw, args)
  {
    var e := New(k, args);
    forall a {
      AssignAt(k, Params(k), args, a);
    }
    forall kw | kw in Params(k)
      ensures e.attrs[AttrOf(k, kw)] == Argument(k, kw, args)
    {
      var a := AttrOf(k, kw);
      AssignAt(k, Params(k), args, a);
      var kw' :| kw' in Params(k) && AttrOf(k, kw') == a && e.attrs[a] == Argument(k, kw', args);
      ParamsAssignDistinctAttributes(k, kw, kw');
    }
  }

  /** Every constructor assigns declared, public columns only, so that its
      arguments are what `to_dict` and `validate` see. */
  lemma ConstructorsAssignColumns(k: Kind)
    ensures forall kw :: kw in Params(k) ==> AttrOf(k, kw) in Keys(Columns(k)) && !Private(AttrOf(k, kw))
  {
    if k == Fan || k == Button || k == Led || k == Buzzer || k == Motion || k == Gas {
      SwitchesAssignColumns(k);
    } else if k == User || k == Temperature || k == Rgbled || k == Illuminance || k == Solar || k == Power {
      SensorsAssignColumns(k);
    } else {
      RecordsAssignColumns(k);
    }
  }

  /** `ConstructorsAssignColumns` for the on/off devices. */
  lemma SwitchesAssignColumns(k: Kind)
    requires k == Fan || k == Button || k == Led || k == Buzzer || k == Motion || k == Gas
    ensures forall kw :: kw in Params(k) ==> AttrOf(k, kw) in Keys(Columns(k)) && !Private(AttrOf(k, kw))
  {
    var names := Keys(Columns(k));
    match k
    case Fan => assert names == ["id", "created_at", "uuid", "status", "gateway_id"];
    case Button => assert names == ["id", "created_at", "uuid", "status", "gateway_id"];
    case Led => assert names == ["id", "created_at", "uuid", "status", "gateway_id"];
    case Buzzer => assert names == ["id", "created_at", "uuid", "status", "gateway_id"];
    case Motion => assert names == ["id", "created_at", "uuid", "status", "gateway_id"];
    case Gas => assert names == ["id", "created_at", "uuid", "status", "gateway_id"];
    case _ => assert false;
  }

  /** `ConstructorsAssignColumns` for the measuring devices and users. */
  lemma SensorsAssignColumns(k: Kind)
    requires k == User || k == Temperature || k == Rgbled || k == Illuminance || k == Solar || k == Power
    ensures forall kw :: kw in Params(k) ==> AttrOf(k, kw) in Keys(Columns(k)) && !Private(AttrOf(k, kw))
  {
    var names := Keys(Columns(k));
    match k
    case User => assert names == ["id", "created_at", "username", "password", "phone", "gateway_id"];
    case Temperature =>
      assert names == ["id", "created_at", "uuid", "temperature", "units", "range", "gateway_id"];
    case Rgbled => assert names == ["id", "created_at", "uuid", "rgbvalue", "range", "gateway_id"];
    case Illuminance => assert names == ["id", "created_at", "uuid", "illuminance", "gateway_id"];
    case Solar =>
      assert names == ["id", "created_at", "uuid", "status", "gateway_id", "tiltpercentage", "lcd_first", "lcd_second"];
    case Power => assert names == ["id", "created_at", "uuid", "value", "gateway_id"];
    case _ => assert false;
  }

  /** `ConstructorsAssignColumns` for the remaining tables. */
  lemma RecordsAssignColumns(k: Kind)
    requires k == Energy || k == EventLog || k == SmsHistroy || k == Gateway || k == Resource || k == SensorType
    ensures forall kw :: kw in Params(k) ==> AttrOf(k, kw) in Keys(Columns(k)) && !Private(AttrOf(k, kw))
  {
    var names := Keys(Columns(k));
    match k
    case Energy => assert names == ["id", "created_at", "uuid", "value", "gateway_id"];
    case EventLog => assert names == ["id", "created_at", "type", "data", "response_code"];
    case SmsHistroy => assert names == ["id", "created_at", "gateway_id", "uuid"];
    case Gateway =>
      assert names == ["id", "created_at", "name", "url", "address", "latitude", "longitude", "status"];
    case Resource =>
      assert names == ["id", "created_at", "uuid", "sensor_type_id", "status", "gateway_id", "path"];
    case SensorType => assert names == ["id", "type"];
    case _ => assert false;
  }

  /** The only column of `Gateway` named `status` is its `Boolean` one. */
  lemma GatewayStatusIsBoolean(i: int)
    requires 0 <= i < |Columns(Gateway)| && Columns(Gateway)[i].name == "status"
    ensures Columns(Gateway)[i].ty == Boolean
  {
  }

  /** A freshly constructed instance whose arguments suit their columns
      passes `validate`: its identifier and creation time are still `None`,
      and the one non-`None` default, a gateway's `False` status, suits its
      `Boolean` column. */
  lemma FreshInstanceValidates(k: Kind, args: map<string, Value>)
    requires forall a :: a in args ==> a in Params(k)
    requires forall kw, i :: kw in args && 0 <= i < |Columns(k)| && Columns(k)[i].name == AttrOf(k, kw) ==>
      TypeCompatible(args[kw], Columns(k)[i].ty)
    ensures Valid(New(k, args))
  {
    var e := New(k, args);
    NewAttributes(k, args);
    forall i | 0 <= i < |e.columns|
      ensures ColumnOk(e, i)
    {
      var name := e.columns[i].name;
      if name in e.attrs {
        var kw :| kw in Params(k) && AttrOf(k, kw) == name;
        if kw !in args && k == Gateway && kw == "status" {
          GatewayStatusIsBoolean(i);
        }
      }
    }
  }

  /** A constructor given every keyword, in a class whose parameters are
      named after their attributes, makes an instance whose attributes are
      exactly its arguments. */
  lemma NewWithEveryArgument(k: Kind, args: map<string, Value>)
    requires k != SensorType
    requires forall a :: a in args <==> a in Params(k)
    ensures New(k, args).attrs == args
  {
    var e := New(k, args);
    NewAttributes(k, args);
    forall a | a in e.attrs
      ensures a in args
    {
      var kw :| kw in Params(k) && AttrOf(k, kw) == a;
      assert kw == a;
    }
    forall a | a in args
      ensures a in e.attrs && e.attrs[a] == args[a]
    {
      assert AttrOf(k, a) == a;
    }
  }

  /** `to_dict()` of a freshly constructed instance shows every attribute its
      constructor set to something other than `None`. */
  lemma FreshToDict(k: Kind, args: map<string, Value>, fmt: int -> string)
    requires forall a :: a in args ==> a in Params(k)
    ensures var e := New(k, args);
      ToDictOf(e, fmt) == map a | a in e.attrs && !e.attrs[a].Null? :: Render(e.attrs[a], fmt)
  {
    var e := New(k, args);
    NewAttributes(k, args);
    ConstructorsAssignColumns(k);
    ToDictShape(e, fmt);
    forall a | a in e.attrs
      ensures a in Keys(e.columns) && !Private(a)
    {
      var kw :| kw in Params(k) && AttrOf(k, kw) == a;
    }
  }

  /** A `Gateway` built without arguments has status `False`, which is all
      its `to_dict()` shows. */
  lemma GatewayStatusDefaultsToFalse(fmt: int -> string)
    ensures Get(New(Gateway, map[]), "status") == Bool(false)
    ensures ToDictOf(New(Gateway, map[]), fmt) == map["status" := Bool(false)]
  {
    var g := New(Gateway, map[]);
    NewAttributes(Gateway, map[]);
    FreshToDict(Gateway, map[], fmt);
    assert "status" in Params(Gateway);
    forall a | a in g.attrs && !g.attrs[a].Null?
      ensures a == "status"
    {
      var kw :| kw in Params(Gateway) && AttrOf(Gateway, kw) == a;
      assert g.attrs[a] == DefaultOf(Gateway, kw);
    }
  }

  /** A fan built with a status, a uuid (a forty-character one in practice)
      and a gateway id: its `to_dict()` shows exactly those three fields, as
      given, until persistence adds `id` and `created_at`. */
  lemma FanToDict(fmt: int -> string, status: bool, uuid: string, gatewayId: int)
    ensures var args := map["status" := Bool(status), "uuid" := Str(uuid), "gateway_id" := Int(gatewayId)];
      ToDictOf(New(Fan, args), fmt) == args
  {
    var args := map["status" := Bool(status), "uuid" := Str(uuid), "gateway_id" := Int(gatewayId)];
    NewWithEveryArgument(Fan, args);
    FreshToDict(Fan, args, fmt);
  }

  /** The arguments of a fan whose status is wrongly the integer 1. */
  const IntegerStatusArguments: map<string, Value> := map["status" := Int(1), "uuid" := Str("a"), "gateway_id" := Int(7)]

  /** In such a fan the columns before `status` are compatible and `status`
      is not. */
  lemma IntegerStatusRejectedAtStatus()
    ensures var fan := New(Fan, IntegerStatusArguments);
      && 3 < |fan.columns| && !ColumnOk(fan, 3) && (forall j :: 0 <= j < 3 ==> ColumnOk(fan, j))
      && Rejection(fan, 3) == InvalidParameter("status", Int(1), Boolean)
  {
    var fan := New(Fan, IntegerStatusArguments);
    NewWithEveryArgument(Fan, IntegerStatusArguments);
    assert fan.columns[3].name == "status" && fan.columns[2].name == "uuid";
  }

  /** `validate` on a fan whose status is the integer 1 raises
      `InvalidParameter` naming the status column. */
  method RejectIntegerStatus() returns (r: Outcome)
    ensures r == Fail(InvalidParameter("status", Int(1), Boolean))
  {
    var fan := New(Fan, IntegerStatusArguments);
    r := Validate(fan);
    IntegerStatusRejectedAtStatus();
    ghost var i :| 0 <= i < |fan.columns| && !ColumnOk(fan, i) && r.error == Rejection(fan, i)
                   && forall j :: 0 <= j < i ==> ColumnOk(fan, j);
    FirstRejectionUnique(fan, i, 3);
  }

  /* A chain of three loaded entities: a resource whose `sensor_type`
     relationship holds its sensor type, and a fan to which the resource has
     been attached as a plain (unmapped) attribute `resource`; `Fan` declares
     no relationship of its own, so that attribute is only in `__dict__`. */
  const ChainSensorType: Entity := Entity("sensor_type", Columns(SensorType), map["id" := Int(3), "type" := Str("fan")])
  const ChainResource: Entity :=
    Entity("resource", Columns(Resource), map["uuid" := Str("r1"), "path" := Str("/fan"), "sensor_type" := Obj(ChainSensorType)])
  const ChainFan: Entity := Entity("fan", Columns(Fan), map["status" := Bool(false), "resource" := Obj(ChainResource)])

  /** A resource's `sensor_type` relationship is not one of its columns. */
  lemma ResourceRelationIsNoColumn()
    ensures "sensor_type" !in Keys(Columns(Resource))
  {
    assert Keys(Columns(Resource)) == ["id", "created_at", "uuid", "sensor_type_id", "status", "gateway_id", "path"];
  }

  /** `join_to_dict` shows the fan's resource by the resource's `to_dict()`,
      in which its own `sensor_type` relationship does not appear. */
  lemma ChainJoinStopsAtOneLevel(fmt: int -> string)
    ensures JoinedView(ChainFan, fmt).Success?
    ensures JoinedView(ChainFan, fmt).value["resource"] == Dict(ToDictOf(ChainResource, fmt))
    ensures "sensor_type" !in ToDictOf(ChainResource, fmt)
  {
    ResourceRelationIsNoColumn();
    ColumnViewAt(ChainResource, Keys(Columns(Resource)), fmt, "sensor_type");
  }

  /** The sensor type, which holds no entity, projects to its two columns. */
  lemma ChainSensorTypeDeep(fmt: int -> string)
    ensures DeepView(ChainSensorType, fmt) == Success(map["id" := Int(3), "type" := Str("fan")])
  {
    ProjectionFacts.RecurseAgreesWithJoinWhenFlat(ChainSensorType, fmt);
    ProjectionFacts.JoinToDictShape(ChainSensorType, fmt);
    var d := JoinedView(ChainSensorType, fmt).value;
    assert d.Keys == {"id", "type"};
    assert d["id"] == Int(3) && d["type"] == Str("fan");
    assert d == map["id" := Int(3), "type" := Str("fan")];
  }

  /** `join_to_dict_recurse` expands the sensor type at depth two. */
  lemma ChainRecurseExpandsDepthTwo(fmt: int -> string)
    ensures DeepView(ChainResource, fmt).Success? && DeepView(ChainFan, fmt).Success?
    ensures DeepView(ChainFan, fmt).value["resource"] == Dict(DeepView(ChainResource, fmt).value)
    ensures DeepView(ChainResource, fmt).value["sensor_type"] == Dict(map["id" := Int(3), "type" := Str("fan")])
  {
    ChainSensorTypeDeep(fmt);
    assert ProjectionFacts.WellNamed(ChainResource);
    ProjectionFacts.RecurseSucceedsIffWellNamed(ChainResource, fmt);
    ProjectionFacts.JoinToDictRecurseShape(ChainResource, fmt);
    assert ProjectionFacts.WellNamed(ChainFan);
    ProjectionFacts.RecurseSucceedsIffWellNamed(ChainFan, fmt);
    ProjectionFacts.JoinToDictRecurseShape(ChainFan, fmt);
  }
}
