/** The application model the convention rewrites: controllers, their
    actions, the actions' parameters and the selectors that carry route and
    HTTP-method constraints. Each framework object becomes an immutable value;
    a nullable reference becomes an `Option`. */
module WebApiModel {
  import opened Wrappers

  /** A CLR type, known by name only. */
  type TypeName = string

  /** An attribute route model. `Combined` stands for the framework's
      `AttributeRouteModel.CombineAttributeRouteModel(outer, inner)`, whose
      rules are not part of this model: it is kept as an uninterpreted term. */
  datatype Route =
    | Template(template: string)
    | Combined(outer: Route, inner: Route)

  /** An action constraint: an HTTP-method constraint lists the methods it
      admits; every other kind of constraint is opaque to the convention. */
  datatype Constraint =
    | HttpMethodConstraint(methods: seq<string>)
    | OtherConstraint

  /** A selector: an optional attribute route and an optional list of
      action constraints. */
  datatype Selector = Selector(route: Option<Route>, constraints: Option<seq<Constraint>>)

  /** The binding source recorded in a parameter's binding info. */
  datatype Binding = FromBody | OtherBinding(source: string)

  /** A parameter: its binding info (None while unset), whether its type is
      primitive-like (a primitive or one of its nullable forms, as the
      framework's type helper decides) and the set of types its type is
      assignable to. */
  datatype Parameter = Parameter(
    name: string,
    binding: Option<Binding>,
    isPrimitiveLike: bool,
    assignableTo: set<TypeName>)

  datatype Action = Action(name: string, selectors: seq<Selector>, parameters: seq<Parameter>)

  /** What reflection reports about a candidate type. */
  datatype TypeFlags = TypeFlags(
    implementsRemoteService: bool,
    isPublic: bool,
    isAbstract: bool,
    isGeneric: bool)

  /** A controller: its name (initially the type name), the flags of its
      type, its controller-level selectors and its actions. */
  datatype Controller = Controller(
    name: string,
    flags: TypeFlags,
    selectors: seq<Selector>,
    actions: seq<Action>)
}
