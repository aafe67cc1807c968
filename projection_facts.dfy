/** What the projections promise: the shape of `join_to_dict`, its single
    level of nesting, and the full expansion done by `join_to_dict_recurse`. */
module ProjectionFacts {
  import opened Values
  import opened TypeCheck
  import opened Validation
  import opened Projection

  /** A plain scalar: what a column with a known Python type holds. */
  predicate Scalar(v: Value)
  {
    TypeOf(v).Some?
  }

  /** Every declared column of `e` holds `None` or a scalar. */
  predicate ScalarColumns(e: Entity)
  {
    forall k :: k in Keys(e.columns) ==> Get(e, k).Null? || Scalar(Get(e, k))
  }

  /** Every value of the dictionary is a scalar. */
  predicate FlatDict(m: map<string, Value>)
  {
    forall k :: k in m ==> Scalar(m[k])
  }

  /** Nesting depth at most one: every value is a scalar or a flat dict. */
  predicate OneLevel(m: map<string, Value>)
  {
    forall k :: k in m ==> Scalar(m[k]) || (m[k].Dict? && FlatDict(m[k].fields))
  }

  /** A value that is a scalar, or a dict whose values are all expanded in
      the same way, at any depth. */
  predicate Expanded(v: Value)
    decreases v
  {
    Scalar(v) || (v.Dict? && forall k :: k in v.fields ==> Expanded(v.fields[k]))
  }

  /** An object graph whose public attributes are `None`, scalars, or
      entities that are themselves plain graphs. */
  predicate PlainGraph(e: Entity)
    decreases e
  {
    forall k :: k in e.attrs && !Private(k) ==>
      e.attrs[k].Null? || Scalar(e.attrs[k]) || (e.attrs[k].Obj? && PlainGraph(e.attrs[k].entity))
  }

  /** No entity reachable through public attributes has an empty attribute
      name. */
  predicate WellNamed(e: Entity)
    decreases e
  {
    "" !in e.attrs &&
    forall k :: k in e.attrs && !Private(k) && e.attrs[k].Obj? ==> WellNamed(e.attrs[k].entity)
  }

  /** A validated entity whose column types all report a Python type holds
      only `None` and scalars in its columns. */
  lemma ValidatedColumnsAreScalar(e: Entity)
    requires Valid(e)
    requires forall i :: 0 <= i < |e.columns| ==> e.columns[i].ty.Typed?
    ensures ScalarColumns(e)
  {
    forall k | k in Keys(e.columns)
      ensures Get(e, k).Null? || Scalar(Get(e, k))
    {
      var i :| 0 <= i < |e.columns| && Keys(e.columns)[i] == k;
      assert ColumnOk(e, i);
      TypedColumnsHoldScalars(Get(e, k), e.columns[i].ty.py);
    }
  }

  /** `to_dict` of an entity whose columns hold scalars is a flat dict. */
  lemma ToDictIsFlat(e: Entity, fmt: int -> string)
    requires ScalarColumns(e)
    ensures FlatDict(ToDictOf(e, fmt))
  {
    ToDictShape(e, fmt);
  }

  /** `join_to_dict` fails exactly on an empty attribute name; otherwise its
      keys are the public attributes not holding `None`, an entity is
      replaced by its `to_dict()`, a datetime by its formatted string, and
      anything else is kept. */
  lemma JoinToDictShape(e: Entity, fmt: int -> string)
    ensures JoinedView(e, fmt).Failure? <==> "" in e.attrs
    ensures JoinedView(e, fmt).Success? ==>
      var d := JoinedView(e, fmt).value;
      && (forall k :: k in d <==> k in e.attrs && !Private(k) && !e.attrs[k].Null?)
      && (forall k :: k in d && e.attrs[k].Obj? ==> d[k] == Dict(ToDictOf(e.attrs[k].entity, fmt)))
      && (forall k :: k in d && !e.attrs[k].Obj? ==> d[k] == Render(e.attrs[k], fmt))
  {
  }

  /** `join_to_dict` nests at most one level: when every public attribute
      is `None`, a scalar or an entity whose columns hold scalars, each value
      of the result is a scalar or a flat dict, whatever relations the
      nested entities have. */
  lemma JoinToDictOneLevel(e: Entity, fmt: int -> string)
    requires forall k :: k in e.attrs && !Private(k) ==>
      e.attrs[k].Null? || Scalar(e.attrs[k]) || (e.attrs[k].Obj? && ScalarColumns(e.attrs[k].entity))
    ensures JoinedView(e, fmt).Success? ==> OneLevel(JoinedView(e, fmt).value)
  {
    if JoinedView(e, fmt).Success? {
      var d := JoinedView(e, fmt).value;
      forall k | k in d
        ensures Scalar(d[k]) || (d[k].Dict? && FlatDict(d[k].fields))
      {
        if e.attrs[k].Obj? {
          ToDictIsFlat(e.attrs[k].entity, fmt);
        }
      }
    }
  }

  /** A list-valued attribute, such as a loaded one-to-many relationship,
      passes through both join variants unchanged: a list is not an entity,
      so the entities inside it are not expanded. */
  lemma ListsPassThrough(e: Entity, fmt: int -> string, k: string)
    requires k in e.attrs && !Private(k) && e.attrs[k].List?
    ensures JoinedView(e, fmt).Success? ==> k in JoinedView(e, fmt).value && JoinedView(e, fmt).value[k] == e.attrs[k]
    ensures DeepView(e, fmt).Success? ==> k in DeepView(e, fmt).value && DeepView(e, fmt).value[k] == e.attrs[k]
  {
  }

  /** `join_to_dict_recurse` expands every nested entity by itself: each
      entity-valued attribute becomes the nested entity's own result, and
      every other present attribute is rendered as in `join_to_dict`. */
  lemma JoinToDictRecurseShape(e: Entity, fmt: int -> string)
    ensures DeepView(e, fmt).Success? ==>
      var d := DeepView(e, fmt).value;
      && (forall k :: k in d <==> k in e.attrs && !Private(k) && !e.attrs[k].Null?)
      && (forall k :: k in d && e.attrs[k].Obj? ==>
            DeepView(e.attrs[k].entity, fmt).Success? && d[k] == Dict(DeepView(e.attrs[k].entity, fmt).value))
      && (forall k :: k in d && !e.attrs[k].Obj? ==> d[k] == Render(e.attrs[k], fmt))
  {
  }

  /** On an entity with no entity-valued attribute the two join variants
      agree. */
  lemma RecurseAgreesWithJoinWhenFlat(e: Entity, fmt: int -> string)
    requires forall k :: k in e.attrs && !Private(k) ==> !e.attrs[k].Obj?
    ensures DeepView(e, fmt) == JoinedView(e, fmt)
  {
    if "" !in e.attrs {
      assert !exists k | k in e.attrs && !Private(k) :: DeepValue(e.attrs[k], fmt).Failure?;
      assert DeepView(e, fmt).value == JoinedView(e, fmt).value;
    }
  }

  /** `join_to_dict_recurse` fails exactly when some entity it reaches has
      an empty attribute name. */
  lemma {:induction false} RecurseSucceedsIffWellNamed(e: Entity, fmt: int -> string)
    ensures DeepView(e, fmt).Success? <==> WellNamed(e)
    decreases e
  {
    forall k | k in e.attrs && !Private(k) && e.attrs[k].Obj?
      ensures DeepValue(e.attrs[k], fmt).Success? <==> WellNamed(e.attrs[k].entity)
    {
      RecurseSucceedsIffWellNamed(e.attrs[k].entity, fmt);
    }
  }

  /** On a plain object graph `join_to_dict_recurse` leaves no entity
      unexpanded at any depth. */
  lemma {:induction false} RecurseExpandsEverything(e: Entity, fmt: int -> string)
    requires PlainGraph(e)
    ensures DeepView(e, fmt).Success? ==> Expanded(Dict(DeepView(e, fmt).value))
    decreases e
  {
    if DeepView(e, fmt).Success? {
      var d := DeepView(e, fmt).value;
      forall k | k in d
        ensures Expanded(d[k])
      {
        var v := e.attrs[k];
        assert DeepValue(v, fmt).Success? && d[k] == DeepValue(v, fmt).value;
        if v.Obj? {
          RecurseExpandsEverything(v.entity, fmt);
        }
      }
    }
  }
}
