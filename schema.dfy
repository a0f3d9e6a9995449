/**
 * The schema the generator reads, as explicit values. In the application the
 * members come from `config('graphql.types')` / `config('graphql.schema.query')`
 * / `config('graphql.schema.mutation')` and are instantiated with `app(...)`;
 * here they arrive already resolved, in the configured iteration order.
 * graphql-php's `ListOfType` / `NonNull` / `ObjectType` classes and the
 * `is_a` checks on them become the constructors of `TypeRef`.
 */
module Schema {

  datatype Option<T> = None | Some(value: T)

  /**
   * A graphql-php type object: a named type that is not an `ObjectType`
   * (scalar, enum, interface, union, input object, or a plain string type
   * name), an object type carrying its `config['name']`, a list wrapping one
   * inner type, or a non-null wrapper around one inner type. Interfaces,
   * unions and input objects are `Scalar`s here, because the generator's
   * `is_a(…, ObjectType)` checks reject them: no field link, and `->name`
   * on the return line.
   * `Type::nonNull(User)` is `NonNull(Object("User"))`, never `Object("User")`:
   * the generator's `is_a` checks see the wrapper, not the object inside.
   */
  datatype TypeRef =
    | Scalar(name: string)
    | Object(configName: string)
    | ListOf(inner: TypeRef)
    | NonNull(inner: TypeRef)

  /** A field is either given inline as an array or names a field class; either way it yields a type and maybe a description. */
  datatype FieldDef =
    | Inline(ty: TypeRef, description: Option<string>)
    | Reference(ty: TypeRef, description: Option<string>)

  /** One entry `name => field` of a type's `fields()` array. */
  datatype Field = Field(name: string, def: FieldDef)

  /** One entry of a query's or mutation's `args()` array; `rules` is None when the key is unset. */
  datatype Argument = Argument(name: string, ty: TypeRef, rules: Option<seq<string>>)

  /** A configured type: its key in `graphql.types`, its `description` attribute, its `fields()`. */
  datatype TypeDef = TypeDef(name: string, description: Option<string>, fields: seq<Field>)

  /** A configured query or mutation: its key, its `description` attribute, `args()` and `type()`. */
  datatype Operation = Operation(name: string, description: Option<string>, args: seq<Argument>, returnType: TypeRef)

  /** The three configured member lists, each in configuration order. */
  datatype Registry = Registry(types: seq<TypeDef>, queries: seq<Operation>, mutations: seq<Operation>)

  /** A type object converted to a string: its name, with `[...]` around a list's inner type. */
  function Display(t: TypeRef): string {
    match t
    case Scalar(n) => n
    case Object(n) => n
    case ListOf(inner) => "[" + Display(inner) + "]"
    case NonNull(inner) => Display(inner) + "!"
  }

  /** The `->name` property: a list or non-null wrapper has no name of its own, so it reads as the empty string. */
  function NameProperty(t: TypeRef): string {
    match t
    case Scalar(n) => n
    case Object(n) => n
    case ListOf(_) => ""
    case NonNull(_) => ""
  }

  /** Strips one list wrapper, as the single `if` over `ListOfType` does. */
  function UnwrapOnce(t: TypeRef): TypeRef {
    if t.ListOf? then t.inner else t
  }

  /** The name shown on a query's or mutation's `Returns` line. */
  function ReturnName(t: TypeRef): string {
    var u := UnwrapOnce(t);
    if u.Object? then u.configName else NameProperty(u)
  }

  /**
   * Exactly one list layer is removed: a list of an object or of a leaf type
   * shows the same name as the bare type, while a list of a list is not
   * unwrapped further and shows no name at all. A non-null wrapper is never
   * stripped, so a non-null type, bare or in a list, shows no name either.
   */
  lemma ReturnNameUnwrapsOneLayer(t: TypeRef)
    ensures t.Object? ==> ReturnName(t) == ReturnName(ListOf(t)) == t.configName
    ensures t.Scalar? ==> ReturnName(t) == ReturnName(ListOf(t)) == t.name
    ensures t.ListOf? ==> ReturnName(ListOf(t)) == ""
    ensures t.NonNull? ==> ReturnName(t) == ReturnName(ListOf(t)) == ""
  {
  }

  /** Every name inside the type fits on one line. */
  predicate OneLineType(t: TypeRef) {
    match t
    case Scalar(n) => '\n' !in n
    case Object(n) => '\n' !in n
    case ListOf(inner) => OneLineType(inner)
    case NonNull(inner) => OneLineType(inner)
  }

  lemma {:induction false} DisplayOneLine(t: TypeRef)
    requires OneLineType(t)
    ensures '\n' !in Display(t)
  {
    match t
    case Scalar(_) =>
    case Object(_) =>
    case ListOf(inner) =>
      DisplayOneLine(inner);
    case NonNull(inner) =>
      DisplayOneLine(inner);
  }
}
