/** The goa design graph that the generator reads, as plain values.

    Wherever the generator ranges over a Go map (an object type's
    attributes, an action's responses, the API's resources) the model takes
    the iteration order as a given sequence, because Go leaves it
    unspecified. The two name transforms of goa, `codegen.Goify` and
    `design.CanonicalIdentifier`, are parameters (`Naming`): nothing is
    assumed about them. */
module Design {
  import opened Wrappers

  /** The kind of an attribute's type. `OtherKind` stands for any kind the
      type table of `convertTypeString` does not list. */
  datatype Kind =
    | BooleanKind | IntegerKind | NumberKind | StringKind | DateTimeKind
    | UUIDKind | AnyKind | ArrayKind | ObjectKind | HashKind
    | UserTypeKind | MediaTypeKind
    | OtherKind(code: int)

  /** The dynamic value of an enum validation: a list of strings, or a
      value of any other Go type. */
  datatype ValidationValues = StringList(items: seq<string>) | OtherList

  /** An attribute's validation rules; `values` is nil when no enum is
      declared. */
  datatype Validation = Validation(values: Option<ValidationValues>)

  /** An attribute definition. A nil metadata map behaves as an empty one. */
  datatype Attribute = Attribute(
    kind: Kind,
    description: string,
    metadata: map<string, seq<string>>,
    validation: Option<Validation>)

  /** The (name, attribute) pairs of an object type, in the order in which
      ranging over its map visits them. */
  type Object = seq<(string, Attribute)>

  /** One declared response of an action; `mediaType` is "" when the
      response declares none. */
  datatype ResponseDef = ResponseDef(mediaType: string)

  /** An action. `parentName` is the name of the resource it belongs to;
      the three parameter sources are nil when absent; `responses` is in
      map iteration order. */
  datatype Action = Action(
    name: string,
    parentName: string,
    pathParams: Option<Object>,
    queryParams: Option<Object>,
    payload: Option<Object>,
    responses: seq<ResponseDef>)

  /** A resource with its actions in the order goa iterates them. */
  datatype Resource = Resource(name: string, actions: seq<Action>)

  /** A view of a media type: the attributes of its object shape. */
  datatype View = View(name: string, attributes: Object)

  /** A media type with its views in iteration order. `viewError` is an
      error the view traversal reports after visiting `views`, if any. */
  datatype MediaType = MediaType(
    identifier: string,
    isError: bool,
    views: seq<View>,
    viewError: Option<string>)

  /** The API definition: resources and media types in iteration order. */
  datatype API = API(
    host: string,
    schemes: seq<string>,
    resources: seq<Resource>,
    mediaTypes: seq<MediaType>)

  /** goa's name transforms: `goify(s, upper)` is `codegen.Goify` and
      `canonicalIdentifier` is `design.CanonicalIdentifier`. */
  datatype Naming = Naming(
    goify: (string, bool) -> string,
    canonicalIdentifier: string -> string)

  /** The metadata key that overrides an attribute's protobuf type. */
  const GrpcTypeKey := "struct:field:grpctype"

  /** An attribute whose type override, if present, has a value; the
      generator indexes the first value and would panic on an empty list. */
  predicate AttributeOk(att: Attribute)
  {
    GrpcTypeKey in att.metadata ==> |att.metadata[GrpcTypeKey]| > 0
  }

  predicate ObjectOk(o: Object)
  {
    forall i :: 0 <= i < |o| ==> AttributeOk(o[i].1)
  }

  predicate OptionalObjectOk(o: Option<Object>)
  {
    o.Some? ==> ObjectOk(o.value)
  }

  predicate ActionOk(a: Action)
  {
    OptionalObjectOk(a.pathParams) && OptionalObjectOk(a.queryParams) && OptionalObjectOk(a.payload)
  }

  predicate ResourceOk(r: Resource)
  {
    forall i :: 0 <= i < |r.actions| ==> ActionOk(r.actions[i])
  }

  predicate ViewsOk(mt: MediaType)
  {
    forall i :: 0 <= i < |mt.views| ==> ObjectOk(mt.views[i].attributes)
  }

  /** The views of a non-error media type can be converted; error media
      types are skipped before any of their attributes is converted. */
  predicate MediaTypeOk(mt: MediaType)
  {
    !mt.isError ==> ViewsOk(mt)
  }
}
