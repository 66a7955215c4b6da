/**
 * Schema directives: the `Location` enumeration, the `StrawberrySchemaDirective`
 * declaration record with its `get_params` operation, and the `schema_directive`
 * decorator factory whose inner `_wrap` attaches a declaration to a class.
 *
 * The applied directive (a live instance of the decorated class) is modelled as
 * the map of its attributes, so that `getattr(directive, name, UNSET)` becomes a
 * map lookup with a default; the schema's name converter is a function parameter.
 */
module SchemaDirective {
  import opened Wrappers

  // ---------------------------------------------------------------------------
  // Location
  // ---------------------------------------------------------------------------

  /** The places in a schema where a directive may be applied. */
  datatype Location =
    | Schema
    | Scalar
    | Object
    | FieldDefinition
    | ArgumentDefinition
    | Interface
    | Union
    | Enum
    | EnumValue
    | InputObject
    | InputFieldDefinition

  /** The members of `Location` in declaration order, as iterating the enum yields them. */
  function Members(): (r: seq<Location>)
    ensures |r| == 11
    ensures forall l: Location :: l in r
    ensures forall i, j | 0 <= i < j < |r| :: r[i] != r[j]
  {
    var r := [Schema, Scalar, Object, FieldDefinition, ArgumentDefinition, Interface,
     Union, Enum, EnumValue, InputObject, InputFieldDefinition];
    assert forall l: Location :: l in r by {
      forall l: Location ensures l in r {
        assert l == r[0] || l == r[1] || l == r[2] || l == r[3] || l == r[4] || l == r[5]
            || l == r[6] || l == r[7] || l == r[8] || l == r[9] || l == r[10];
      }
    }
    r
  }

  // ---------------------------------------------------------------------------
  // Fields and values
  // ---------------------------------------------------------------------------

  /**
   * A declared field of a directive class: its attribute name on the class and
   * an optional Python-side name, which may be absent or empty.
   */
  datatype Field = Field(name: string, pythonName: Option<string>)

  /** A parameter value: the `UNSET` sentinel, or a value read from the instance. */
  datatype Value<V> = Unset | Provided(value: V)

  /** Python truthiness of an optional string: present and non-empty. */
  predicate Truthy(s: Option<string>)
  {
    s.Some? && s.value != ""
  }

  /** The attribute a field is read from: `f.python_name or f.name`. */
  function AttributeName(f: Field): string
  {
    if Truthy(f.pythonName) then f.pythonName.value else f.name
  }

  /** `getattr(instance, attr, UNSET)` on an instance given by its attribute map. */
  function Lookup<V>(instance: map<string, V>, attr: string): Value<V>
  {
    if attr in instance then Provided(instance[attr]) else Unset
  }

  /** The value `get_params` records for one field. */
  function FieldValue<V>(instance: map<string, V>, f: Field): Value<V>
  {
    Lookup(instance, AttributeName(f))
  }

  /** The converted names of all declared fields. */
  ghost function ConvertedNames(fields: seq<Field>, conv: Field -> string): set<string>
  {
    set i | 0 <= i < |fields| :: conv(fields[i])
  }

  /** No field after position `i` converts to the same name as field `i`. */
  ghost predicate LastWithName(fields: seq<Field>, conv: Field -> string, i: int)
    requires 0 <= i < |fields|
  {
    forall j | i < j < |fields| :: conv(fields[j]) != conv(fields[i])
  }

  /**
   * The dict comprehension of `get_params`, as a left fold: the fields are
   * visited in order and each stores its value under its converted name,
   * replacing whatever an earlier field stored there.
   */
  function ParamsOf<V>(fields: seq<Field>, instance: map<string, V>, conv: Field -> string): (r: map<string, Value<V>>)
    ensures r.Keys == ConvertedNames(fields, conv)
    decreases |fields|
  {
    if fields == [] then map[]
    else
      var init, last := fields[..|fields| - 1], fields[|fields| - 1];
      var prior := ParamsOf(init, instance, conv);
      assert ConvertedNames(fields, conv) == ConvertedNames(init, conv) + {conv(last)} by {
        forall k | k in ConvertedNames(fields, conv) ensures k in ConvertedNames(init, conv) + {conv(last)} {
          var i :| 0 <= i < |fields| && conv(fields[i]) == k;
          if i < |init| { assert init[i] == fields[i]; }
        }
        forall k | k in ConvertedNames(init, conv) ensures k in ConvertedNames(fields, conv) {
          var i :| 0 <= i < |init| && conv(init[i]) == k;
          assert fields[i] == init[i];
        }
      }
      prior[conv(last) := FieldValue(instance, last)]
  }

  // ---------------------------------------------------------------------------
  // Properties of the parameter map
  // ---------------------------------------------------------------------------

  /** Each name holds the value of the last field that converts to it. */
  lemma {:induction false} ParamsOfLastWins<V>(fields: seq<Field>, instance: map<string, V>, conv: Field -> string, i: int)
    requires 0 <= i < |fields| && LastWithName(fields, conv, i)
    ensures conv(fields[i]) in ParamsOf(fields, instance, conv)
    ensures ParamsOf(fields, instance, conv)[conv(fields[i])] == FieldValue(instance, fields[i])
    decreases |fields|
  {
    var n := |fields|;
    if i < n - 1 {
      var init := fields[..n - 1];
      assert init[i] == fields[i];
      assert conv(fields[n - 1]) != conv(fields[i]);
      forall j | i < j < |init| ensures conv(init[j]) != conv(init[i]) {
        assert init[j] == fields[j];
      }
      ParamsOfLastWins(init, instance, conv, i);
    }
  }

  /** Concatenating field lists merges their maps, the later list winning on shared names. */
  lemma {:induction false} ParamsOfAppend<V>(a: seq<Field>, b: seq<Field>, instance: map<string, V>, conv: Field -> string)
    ensures ParamsOf(a + b, instance, conv) == ParamsOf(a, instance, conv) + ParamsOf(b, instance, conv)
    decreases |b|
  {
    if b == [] {
      assert a + b == a;
    } else {
      var binit, last := b[..|b| - 1], b[|b| - 1];
      assert (a + b)[..|a + b| - 1] == a + binit;
      assert (a + b)[|a + b| - 1] == last;
      ParamsOfAppend(a, binit, instance, conv);
    }
  }

  /** When the converted names are pairwise distinct, there is one entry per field. */
  lemma {:induction false} ParamsOfSize<V>(fields: seq<Field>, instance: map<string, V>, conv: Field -> string)
    requires forall i, j | 0 <= i < j < |fields| :: conv(fields[i]) != conv(fields[j])
    ensures |ParamsOf(fields, instance, conv)| == |fields|
    decreases |fields|
  {
    if fields != [] {
      var n := |fields|;
      var init := fields[..n - 1];
      forall i, j | 0 <= i < j < |init| ensures conv(init[i]) != conv(init[j]) {
        assert init[i] == fields[i] && init[j] == fields[j];
      }
      ParamsOfSize(init, instance, conv);
    }
  }

  // ---------------------------------------------------------------------------
  // The declaration record
  // ---------------------------------------------------------------------------

  /**
   * `StrawberrySchemaDirective`: the declaration attached to a directive class.
   * The defaults are those of the record's optional attributes.
   */
  datatype Decl = Decl(
    pythonName: string,
    graphqlName: Option<string>,
    locations: seq<Location>,
    fields: seq<Field>,
    description: Option<string> := None,
    repeatable: bool := false,
    printDefinition: bool := true,
    origin: Option<DirectiveClass> := None)
  {
    /**
     * `get_params`: the map from each declared field's converted name to the
     * instance's attribute for that field, or `Unset` where the instance lacks it.
     */
    function GetParams<V>(directive: map<string, V>, conv: Field -> string): (r: map<string, Value<V>>)
      ensures forall k :: k in r <==> exists i | 0 <= i < |fields| :: conv(fields[i]) == k
      ensures forall i | 0 <= i < |fields| && LastWithName(fields, conv, i) ::
        && conv(fields[i]) in r
        && (Truthy(fields[i].pythonName) ==> r[conv(fields[i])] == Lookup(directive, fields[i].pythonName.value))
        && (!Truthy(fields[i].pythonName) ==> r[conv(fields[i])] == Lookup(directive, fields[i].name))
        && (r[conv(fields[i])] == Unset <==> AttributeName(fields[i]) !in directive)
    {
      forall i | 0 <= i < |fields| && LastWithName(fields, conv, i)
        ensures ParamsOf(fields, directive, conv)[conv(fields[i])] == FieldValue(directive, fields[i])
      {
        ParamsOfLastWins(fields, directive, conv, i);
      }
      ParamsOf(fields, directive, conv)
    }
  }

  /** A declaration built from its four required attributes takes the record's defaults for the rest. */
  lemma DeclDefaults(pythonName: string, graphqlName: Option<string>, locations: seq<Location>, fields: seq<Field>)
    ensures var d := Decl(pythonName, graphqlName, locations, fields);
      d.description == None && !d.repeatable && d.printDefinition && d.origin == None
  {
  }

  /** A declaration with no fields yields no parameters. */
  lemma GetParamsNoFields<V>(d: Decl, directive: map<string, V>, conv: Field -> string)
    requires d.fields == []
    ensures d.GetParams(directive, conv) == map[]
  {
  }

  /** Of two fields converting to the same name, only the later one's value is kept. */
  lemma GetParamsCollision<V>(d: Decl, directive: map<string, V>, conv: Field -> string, i: int, j: int)
    requires 0 <= i < j < |d.fields| && conv(d.fields[i]) == conv(d.fields[j])
    requires LastWithName(d.fields, conv, j)
    ensures d.GetParams(directive, conv)[conv(d.fields[i])] == FieldValue(directive, d.fields[j])
  {
  }

  /**
   * A directive on objects with fields `a` and `b`, applied with `a = 5` and `b`
   * never assigned, under the identity naming policy, yields `a -> 5, b -> UNSET`.
   */
  lemma GetParamsExample()
    ensures
      var d := Decl("Tag", None, [Object], [Field("a", None), Field("b", None)]);
      d.GetParams(map["a" := 5], (f: Field) => f.name) == map["a" := Provided(5), "b" := Unset]
  {
  }

  /**
   * A field's entry is `Unset` exactly when the instance lacks the attribute the
   * field is read from, and otherwise it is that attribute's value.
   */
  lemma GetParamsUnsetOrProvided<V>(d: Decl, directive: map<string, V>, conv: Field -> string, i: int)
    requires 0 <= i < |d.fields| && LastWithName(d.fields, conv, i)
    ensures var r := d.GetParams(directive, conv); var attr := AttributeName(d.fields[i]);
      && conv(d.fields[i]) in r
      && (attr !in directive ==> r[conv(d.fields[i])] == Unset)
      && (attr in directive ==> r[conv(d.fields[i])] == Provided(directive[attr]))
  {
  }

  // ---------------------------------------------------------------------------
  // Registration
  // ---------------------------------------------------------------------------

  /**
   * A user class being declared as a directive: its `__name__`, the fields the
   * dataclass machinery extracts from it in declaration order, and its
   * `__strawberry_directive__` attribute.
   */
  class DirectiveClass {
    var name: string
    var fields: seq<Field>
    var directive: Option<Decl>

    constructor (name: string, fields: seq<Field>)
      ensures this.name == name && this.fields == fields && directive == None
    {
      this.name := name;
      this.fields := fields;
      directive := None;
    }
  }

  /**
   * The configuration captured by the decorator that `schema_directive` returns.
   * Its arguments are keyword-only and take the factory's defaults.
   */
  datatype DirectiveOptions = DirectiveOptions(
    nameonly locations: seq<Location>,
    nameonly description: Option<string> := None,
    nameonly name: Option<string> := None,
    nameonly repeatable: bool := false,
    nameonly printDefinition: bool := true)

  /** With only `locations` given, the other options take their documented defaults. */
  lemma SchemaDirectiveDefaults(locations: seq<Location>)
    ensures var options := DirectiveOptions(locations := locations);
      options.description == None && options.name == None && !options.repeatable && options.printDefinition
  {
  }

  /**
   * `_wrap`: attach a fresh declaration built from the options and the class's
   * own name and fields, and hand back the same class. Any earlier declaration
   * is overwritten; the locations are stored as given, even when empty.
   */
  method Wrap(options: DirectiveOptions, cls: DirectiveClass) returns (r: DirectiveClass)
    modifies cls
    ensures r == cls
    ensures cls.name == old(cls.name) && cls.fields == old(cls.fields)
    ensures cls.directive.Some?
    ensures cls.directive.value.pythonName == cls.name
    ensures cls.directive.value.graphqlName == options.name
    ensures cls.directive.value.locations == options.locations
    ensures cls.directive.value.fields == cls.fields
    ensures cls.directive.value.description == options.description
    ensures cls.directive.value.repeatable == options.repeatable
    ensures cls.directive.value.printDefinition == options.printDefinition
    ensures cls.directive.value.origin == Some(cls)
  {
    var fields := cls.fields;
    cls.directive := Some(Decl(
      pythonName := cls.name,
      graphqlName := options.name,
      locations := options.locations,
      description := options.description,
      repeatable := options.repeatable,
      fields := fields,
      printDefinition := options.printDefinition,
      origin := Some(cls)));
    r := cls;
  }

  /**
   * `schema_directive(...)(cls)`: build the decorator from keyword arguments and
   * apply it. Omitted arguments take the factory's defaults.
   */
  method Decorate(
    cls: DirectiveClass,
    nameonly locations: seq<Location>,
    nameonly description: Option<string> := None,
    nameonly name: Option<string> := None,
    nameonly repeatable: bool := false,
    nameonly printDefinition: bool := true) returns (r: DirectiveClass)
    modifies cls
    ensures r == cls
    ensures cls.name == old(cls.name) && cls.fields == old(cls.fields)
    ensures cls.directive == Some(Decl(old(cls.name), name, locations, old(cls.fields),
                                       description, repeatable, printDefinition, Some(cls)))
  {
    var options := DirectiveOptions(
      locations := locations, description := description, name := name,
      repeatable := repeatable, printDefinition := printDefinition);
    r := Wrap(options, cls);
  }

  /** Decorating with only `locations` attaches a declaration with the defaults. */
  method DecorateWithDefaults(cls: DirectiveClass, locations: seq<Location>) returns (r: DirectiveClass)
    modifies cls
    ensures r == cls
    ensures cls.directive == Some(Decl(old(cls.name), None, locations, old(cls.fields),
                                       None, false, true, Some(cls)))
  {
    r := Decorate(cls, locations := locations);
  }

  /** Decorating a class twice leaves only the second declaration attached. */
  method WrapTwice(first: DirectiveOptions, second: DirectiveOptions, cls: DirectiveClass) returns (r: DirectiveClass)
    modifies cls
    ensures r == cls && cls.directive.Some?
    ensures cls.directive.value == Decl(old(cls.name), second.name, second.locations, old(cls.fields),
                                        second.description, second.repeatable, second.printDefinition, Some(cls))
  {
    r := Wrap(first, cls);
    r := Wrap(second, r);
  }
}
