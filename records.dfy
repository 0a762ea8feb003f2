/**
 * The five read-only collections and the record kinds they hold. Each record
 * carries the fields its GraphQL type declares; the JSON-typed ones are kept
 * as parsed values and a missing optional field is `None` or `Undefined`.
 * The JSON `_id` field is called `id` here.
 */
module Records {
  import opened Wrappers
  import opened JsValues

  /**
   * A field meant to hold a list of foreign ids, as `Array.isArray` sees it:
   * missing from the record, present but not an array (null, a string, an
   * object, ...), or an array of ids.
   */
  datatype IdListField = Absent | NotArray | Ids(ids: seq<string>)

  /** A conversation-flow node; `trigger`, `responses` and `postActions` are foreign keys. */
  datatype Node = Node(
    id: string,
    createdAt: int,
    updatedAt: Option<int>,
    name: string,
    description: Option<string>,
    parents: JsValue,
    parentIds: Option<seq<string>>,
    root: Option<bool>,
    redirect: JsValue,
    analytics: Option<string>,
    memberTagging: Option<string>,
    nodeType: Option<string>,
    trigger: Option<string>,
    responses: IdListField,
    actions: Option<string>,
    postActions: IdListField,
    priority: Option<real>,
    position: JsValue,
    compositeId: Option<string>,
    global: Option<bool>,
    colour: Option<string>)

  /** A named condition; `resourceTemplateId` is a foreign key. */
  datatype Trigger = Trigger(
    id: string,
    createdAt: int,
    updatedAt: Option<int>,
    name: string,
    description: Option<string>,
    params: JsValue,
    functionString: Option<string>,
    resourceTemplateId: Option<string>)

  /** A named operation; `resourceTemplateId` is a foreign key. */
  datatype Action = Action(
    id: string,
    createdAt: int,
    updatedAt: Option<int>,
    name: string,
    description: Option<string>,
    params: JsValue,
    functionString: Option<string>,
    resourceTemplateId: Option<string>)

  /** A named payload with platform and tag metadata; no foreign keys. */
  datatype Response = Response(
    id: string,
    createdAt: int,
    updatedAt: Option<int>,
    name: string,
    description: Option<string>,
    platforms: JsValue,
    tags: JsValue)

  /** A template definition; a leaf with no foreign keys. */
  datatype ResourceTemplate = ResourceTemplate(
    id: string,
    createdAt: int,
    updatedAt: Option<int>,
    name: string,
    templateType: Option<string>,
    description: Option<string>,
    schema: JsValue,
    requestedVerification: Option<bool>,
    verified: Option<bool>,
    published: Option<bool>,
    integrationId: Option<string>,
    functionString: Option<string>,
    key: Option<string>)

  /** The five collections, loaded once and never changed afterwards. */
  datatype Store = Store(
    nodes: seq<Node>,
    triggers: seq<Trigger>,
    actions: seq<Action>,
    responses: seq<Response>,
    resourceTemplates: seq<ResourceTemplate>)

  /** The `_id` of each record kind, for `find`. */
  function NodeKey(n: Node): string { n.id }
  function TriggerKey(t: Trigger): string { t.id }
  function ActionKey(a: Action): string { a.id }
  function ResponseKey(r: Response): string { r.id }
  function TemplateKey(t: ResourceTemplate): string { t.id }
}
