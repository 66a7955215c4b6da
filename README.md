# Strawberry schema directives, modelled in Dafny

This project models `strawberry/schema_directive.py`: how a Python class is
declared as a GraphQL schema directive, and how the argument values of an
applied directive are read back when the schema is printed.

- `Location` is the closed enumeration of the eleven type-system directive
  locations of section 3.13 (Directives) of the GraphQL specification.
- `Decl` is the `StrawberrySchemaDirective` record. Its optional attributes
  keep their defaults (`description = None`, `repeatable = False`,
  `print_definition = True`, `origin = None`) as constructor defaults.
- `Decl.GetParams` is `get_params`. The applied directive is the map of its
  attributes. The schema's name converter is a function `conv: Field -> string`.
  The dict comprehension is modelled by the left fold `ParamsOf`, which
  gives the same keys and values: fields are visited in declaration order,
  and a later field whose converted name collides with an earlier one
  replaces its value. The order of the keys is not modelled (see below). A field whose attribute is missing maps to
  `Unset`, the model of the `UNSET` sentinel.
- `DirectiveOptions` is the configuration that the decorator returned by
  `schema_directive` captures. Its constructor takes the same keyword-only
  (`nameonly`) arguments with the same defaults. `Decorate` is the factory
  applied to a class.
- `Wrap` is `_wrap`. A `DirectiveClass` object stands for the user class, with
  its name, its extracted fields and a mutable `directive` slot for the
  `__strawberry_directive__` attribute. `Wrap` writes that slot, changes
  nothing else, and returns the same object.

An empty `locations` list is stored as given, and fields whose converted
names collide are merged silently, the later field winning. The code rejects
neither empty `locations` nor colliding converted names, and neither does
the model.

## Model

| member | source | states |
|---|---|---|
| `SchemaDirective.Members` | strawberry/schema_directive.py:18-29 | the enumeration has exactly 11 members, pairwise distinct, and every `Location` is among them |
| `SchemaDirective.ParamsOf` | strawberry/schema_directive.py:46-51 | the comprehension's key set is exactly the set of converted names of the declared fields: no extras, no omissions |
| `SchemaDirective.ParamsOfLastWins` | strawberry/schema_directive.py:46-51 | the entry under a converted name holds the value of the last field converting to that name, read by `python_name or name` with `UNSET` as default |
| `SchemaDirective.ParamsOfAppend` | strawberry/schema_directive.py:46-51 | the params of a concatenated field list are the first list's params overridden by the second's (order matters; later wins) |
| `SchemaDirective.ParamsOfSize` | strawberry/schema_directive.py:46-51 | when converted names are pairwise distinct, the map has exactly one entry per field |
| `SchemaDirective.Decl.GetParams` | strawberry/schema_directive.py:43-51 | keys are exactly the converted field names; for the last field with a given key the value is the attribute named `python_name` when that is truthy and `name` otherwise, and it is `Unset` exactly when that attribute is missing |
| `SchemaDirective.GetParamsNoFields` | strawberry/schema_directive.py:50 | a declaration with no fields yields the empty map |
| `SchemaDirective.GetParamsCollision` | strawberry/schema_directive.py:46-51 | of two fields converting to the same name, the entry holds the later field's value |
| `SchemaDirective.GetParamsExample` | strawberry/schema_directive.py:43-51 | fields `a`, `b` with `a = 5` set and `b` unset give `{a: 5, b: UNSET}` under the identity converter |
| `SchemaDirective.GetParamsUnsetOrProvided` | strawberry/schema_directive.py:47-48 | for the last field with a given converted name, the entry is `Unset` exactly when the instance lacks the attribute named `python_name or name`, and otherwise it is `Provided` with that attribute's value |
| `SchemaDirective.DeclDefaults` | strawberry/schema_directive.py:32-41 | a record built from its required attributes has no description, is not repeatable, prints its definition and has no origin |
| `SchemaDirective.Decorate` | strawberry/schema_directive.py:60-85 | applying the decorator built from the keyword arguments attaches exactly the declaration made of the class name, the `name` option, the locations, the class's fields, the description and flags, and the class as origin; returns the same class |
| `SchemaDirective.DecorateWithDefaults` | strawberry/schema_directive.py:62-81 | decorating with only `locations` attaches a declaration with no `graphql_name`, no description, `repeatable` false and `print_definition` true |
| `SchemaDirective.SchemaDirectiveDefaults` | strawberry/schema_directive.py:62-66 | with only `locations` given, description and name are `None`, `repeatable` is false and `print_definition` is true |
| `SchemaDirective.Wrap` | strawberry/schema_directive.py:68-83 | attaches a declaration whose `python_name` is the class name, `graphql_name` the `name` option, locations (even empty) and flags passed through, fields the extracted fields in order and origin the class; nothing else on the class changes; returns the same class |
| `SchemaDirective.WrapTwice` | strawberry/schema_directive.py:68-83 | decorating twice leaves only the second declaration attached (last write wins) |

## Left out

- `_wrap_dataclass` and `_get_fields` (dataclass conversion and field extraction) are not part of this model. The class is taken as already converted, and its `fields` attribute holds the extracted fields in declaration order.
- The name converter (`schema.config.name_converter`) is not part of this model; it is the function parameter `conv`. A converter that raises is not modelled, because `conv` is total.
- Python reflection is modelled by map lookups: `getattr(directive, attr, UNSET)` is `Lookup`, and `cls.__name__` is the `name` field of `DirectiveClass`.
- An instance attribute whose stored value is itself the `UNSET` object is not distinguished from a missing one in the code; the model's attribute values are of a generic type, so this identity is not modelled.
- The key order of the returned dict is not modelled. In Python each key keeps the position where its first field inserted it, and a later colliding field replaces only the value; a Dafny `map` has no order, so only keys and values are modelled.
- Aliasing of the `locations` and `fields` lists is not modelled. The declaration stores references to the same list objects that were passed in, so every class decorated by one decorator shares its `locations` list; the model's `seq` values are copies.
- The string payloads of the `Location` members are not modelled; only the members and their distinctness are.
- `__dataclass_transform__` is a static-typing hint with no runtime behaviour and is not modelled.
- `get_params` is pure in the model because Dafny functions cannot change state; the mutability of the Python record is not modelled.
