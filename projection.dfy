/** The three dictionary projections of the helper layer: `to_dict`,
    `join_to_dict` and `join_to_dict_recurse`.

    `util.format_datetime` is not part of this model: every projection takes
    it as the parameter `fmt`, from a datetime's stamp to the string it
    renders. Python dicts are unordered, so each result is a `map`. */
module Projection {
  import opened Values

  /** What every projection stores for a present value before any entity
      expansion: a datetime goes through the formatter, anything else is kept. */
  function Render(v: Value, fmt: int -> string): Value
  {
    if v.DateTime? then Str(fmt(v.stamp)) else v
  }

  /* ---------------------------------------------------------------- to_dict */

  /** The dictionary the `to_dict` loop has built after visiting `keys`, in
      order: private names are skipped, `None` values omitted, and a later
      key overwrites an earlier one. */
  function ColumnView(e: Entity, keys: seq<string>, fmt: int -> string): map<string, Value>
  {
    if keys == [] then map[]
    else
      var d := ColumnView(e, keys[..|keys| - 1], fmt);
      var key := keys[|keys| - 1];
      if Private(key) || Get(e, key).Null? then d else d[key := Render(Get(e, key), fmt)]
  }

  /** The result of `to_dict`. */
  function ToDictOf(e: Entity, fmt: int -> string): map<string, Value>
  {
    ColumnView(e, Keys(e.columns), fmt)
  }

  /** A key is in the view exactly when it is one of the visited keys, is not
      private and holds a value other than `None`; its entry is that value,
      rendered. */
  lemma {:induction false} ColumnViewAt(e: Entity, keys: seq<string>, fmt: int -> string, k: string)
    ensures k in ColumnView(e, keys, fmt) <==> k in keys && !Private(k) && !Get(e, k).Null?
    ensures k in ColumnView(e, keys, fmt) ==> ColumnView(e, keys, fmt)[k] == Render(Get(e, k), fmt)
  {
    if keys != [] {
      var prefix := keys[..|keys| - 1];
      assert keys == prefix + [keys[|keys| - 1]];
      ColumnViewAt(e, prefix, fmt, k);
    }
  }

  /** `to_dict`'s keys are declared column names, none private and none
      holding `None`, and every such column is present; a datetime is
      replaced by its formatted string and any other value is passed through
      unchanged. */
  lemma ToDictShape(e: Entity, fmt: int -> string)
    ensures forall k :: k in ToDictOf(e, fmt) <==> k in Keys(e.columns) && !Private(k) && !Get(e, k).Null?
    ensures forall k :: k in ToDictOf(e, fmt) ==> ToDictOf(e, fmt)[k] != Null
    ensures forall k :: k in ToDictOf(e, fmt) && Get(e, k).DateTime? ==> ToDictOf(e, fmt)[k] == Str(fmt(Get(e, k).stamp))
    ensures forall k :: k in ToDictOf(e, fmt) && !Get(e, k).DateTime? ==> ToDictOf(e, fmt)[k] == Get(e, k)
  {
    forall k {
      ColumnViewAt(e, Keys(e.columns), fmt, k);
    }
  }

  /** `to_dict`: the loop over the column keys. */
  method ToDict(e: Entity, fmt: int -> string) returns (d: map<string, Value>)
    ensures d == ToDictOf(e, fmt)
  {
    var keys := Keys(e.columns);
    d := map[];
    for i := 0 to |keys|
      invariant d == ColumnView(e, keys[..i], fmt)
    {
      assert keys[..i + 1][..i] == keys[..i];
      var key := keys[i];
      if Private(key) {
        continue;
      }
      var value := Get(e, key);
      if !value.Null? {
        if value.DateTime? {
          value := Str(fmt(value.stamp));
        }
        d := d[key := value];
      }
    }
    assert keys[..|keys|] == keys;
  }

  /* ------------------------------------------------------- the join variants */

  /** The comprehension that opens both join variants: the instance
      attributes whose name does not start with `_`. Its test `k[0] == '_'`
      raises `IndexError` on an empty name; on any other name it agrees with
      `startswith('_')`. */
  method PublicAttributes(e: Entity) returns (r: Result<map<string, Value>>)
    ensures "" in e.attrs ==> r == Failure(IndexError)
    ensures "" !in e.attrs ==> r == Success(map k | k in e.attrs && !Private(k) :: e.attrs[k])
  {
    var pending := e.attrs.Keys;
    var joined := map[];
    while pending != {}
      invariant pending <= e.attrs.Keys
      invariant "" !in e.attrs.Keys - pending
      invariant joined == map k | k in e.attrs.Keys - pending && !Private(k) :: e.attrs[k]
      decreases pending
    {
      var k :| k in pending;
      pending := pending - {k};
      if |k| == 0 {
        return Failure(IndexError);
      }
      if !(k[0] == '_') {
        joined := joined[k := e.attrs[k]];
      }
    }
    assert e.attrs.Keys - pending == e.attrs.Keys;
    return Success(joined);
  }

  /** What `join_to_dict` stores for a present attribute value: an entity is
      replaced by its own `to_dict()`. */
  function JoinedValue(v: Value, fmt: int -> string): Value
  {
    if v.Obj? then Dict(ToDictOf(v.entity, fmt)) else Render(v, fmt)
  }

  /** The result of `join_to_dict`. */
  function JoinedView(e: Entity, fmt: int -> string): Result<map<string, Value>>
  {
    if "" in e.attrs then Failure(IndexError)
    else Success(map k | k in e.attrs && !Private(k) && !e.attrs[k].Null? :: JoinedValue(e.attrs[k], fmt))
  }

  /** `join_to_dict`: the loop over the public attributes. */
  method JoinToDict(e: Entity, fmt: int -> string) returns (r: Result<map<string, Value>>)
    ensures r == JoinedView(e, fmt)
  {
    var joined := PublicAttributes(e);
    if joined.Failure? {
      return joined;
    }
    var pending := joined.value.Keys;
    var dict := map[];
    while pending != {}
      invariant pending <= joined.value.Keys
      invariant dict == map k | k in joined.value.Keys - pending && !joined.value[k].Null? :: JoinedValue(joined.value[k], fmt)
      decreases pending
    {
      var key :| key in pending;
      pending := pending - {key};
      if Private(key) {
        continue;
      }
      var value := joined.value[key];
      if !value.Null? {
        if value.DateTime? {
          value := Str(fmt(value.stamp));
        }
        if value.Obj? {
          var nested := ToDict(value.entity, fmt);
          value := Dict(nested);
        }
        dict := dict[key := value];
      }
    }
    assert joined.value.Keys - pending == joined.value.Keys;
    assert JoinedView(e, fmt).Success?;
    assert dict == JoinedView(e, fmt).value;
    return Success(dict);
  }

  /** What `join_to_dict_recurse` stores for a present attribute value: an
      entity is replaced by its own `join_to_dict_recurse()`, whose failure
      propagates. */
  function DeepValue(v: Value, fmt: int -> string): Result<Value>
    decreases v
  {
    if v.Obj? then
      match DeepView(v.entity, fmt)
      case Success(m) => Success(Dict(m))
      case Failure(err) => Failure(err)
    else Success(Render(v, fmt))
  }

  /** The result of `join_to_dict_recurse`: it fails when the entity or any
      entity it reaches has an empty attribute name. Termination follows
      from the acyclicity of `Entity` values. */
  function DeepView(e: Entity, fmt: int -> string): Result<map<string, Value>>
    decreases e
  {
    if "" in e.attrs then Failure(IndexError)
    else if exists k | k in e.attrs && !Private(k) :: DeepValue(e.attrs[k], fmt).Failure? then Failure(IndexError)
    else Success(map k | k in e.attrs && !Private(k) && !e.attrs[k].Null? :: DeepValue(e.attrs[k], fmt).value)
  }

  /** `join_to_dict_recurse`: the loop over the public attributes, calling
      itself on every entity-valued attribute. */
  method JoinToDictRecurse(e: Entity, fmt: int -> string) returns (r: Result<map<string, Value>>)
    ensures r == DeepView(e, fmt)
    decreases e
  {
    var joined := PublicAttributes(e);
    if joined.Failure? {
      return joined;
    }
    var pending := joined.value.Keys;
    var dict := map[];
    while pending != {}
      invariant pending <= joined.value.Keys
      invariant forall k :: k in joined.value.Keys - pending ==> DeepValue(e.attrs[k], fmt).Success?
      invariant dict == map k | k in joined.value.Keys - pending && !e.attrs[k].Null? :: DeepValue(e.attrs[k], fmt).value
      decreases pending
    {
      var key :| key in pending;
      pending := pending - {key};
      if Private(key) {
        continue;
      }
      var value := joined.value[key];
      if !value.Null? {
        if value.DateTime? {
          value := Str(fmt(value.stamp));
        }
        if value.Obj? {
          var nested := JoinToDictRecurse(value.entity, fmt);
          if nested.Failure? {
            return Failure(nested.error);
          }
          value := Dict(nested.value);
        }
        dict := dict[key := value];
      }
    }
    assert joined.value.Keys - pending == joined.value.Keys;
    assert !exists k | k in e.attrs && !Private(k) :: DeepValue(e.attrs[k], fmt).Failure?;
    assert DeepView(e, fmt).Success?;
    assert dict == DeepView(e, fmt).value;
    return Success(dict);
  }
}
