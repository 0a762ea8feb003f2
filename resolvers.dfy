/**
 * The join engine: top-level queries over the five collections and the
 * per-field resolvers that follow foreign keys. Every resolver is a pure
 * function of the store and its parent record.
 */
module Resolvers {
  import opened Wrappers
  import opened JsValues
  import opened Records
  import opened ArrayOps

  /**
   * What an id-taking query returns: the single record found (or `undefined`)
   * when the id is truthy, and otherwise the whole collection.
   */
  datatype QueryResult<T> = One(found: Option<T>) | All(records: seq<T>)

  /** `id ? s.find(x => x._id === id) : s`. */
  function Lookup<T>(s: seq<T>, key: T -> string, id: Option<string>): (r: QueryResult<T>)
    ensures Truthy(id) ==> r.One? && IsFirstMatch(s, key, id, r.found)
    ensures !Truthy(id) ==> r == All(s)
  {
    if Truthy(id) then One(FindById(s, key, id)) else All(s)
  }

  // ----- Query -----

  /** `Query.node`: the first node with the id, or all nodes when the id is missing or empty. */
  function QueryNode(store: Store, nodeId: Option<string>): (r: QueryResult<Node>)
    ensures Truthy(nodeId) ==> r.One? && IsFirstMatch(store.nodes, NodeKey, nodeId, r.found)
    ensures !Truthy(nodeId) ==> r == All(store.nodes)
  {
    Lookup(store.nodes, NodeKey, nodeId)
  }

  /** `Query.nodes`. */
  function QueryNodes(store: Store): (r: seq<Node>)
    ensures r == store.nodes
    ensures QueryNode(store, None) == All(r)
  {
    store.nodes
  }

  /** `Query.trigger`. */
  function QueryTrigger(store: Store, triggerId: Option<string>): (r: QueryResult<Trigger>)
    ensures Truthy(triggerId) ==> r.One? && IsFirstMatch(store.triggers, TriggerKey, triggerId, r.found)
    ensures !Truthy(triggerId) ==> r == All(store.triggers)
  {
    Lookup(store.triggers, TriggerKey, triggerId)
  }

  /** `Query.triggers`. */
  function QueryTriggers(store: Store): (r: seq<Trigger>)
    ensures r == store.triggers
    ensures QueryTrigger(store, None) == All(r)
  {
    store.triggers
  }

  /**
   * `Query.actions`: the one id-taking action query (there is no `action`
   * resolver and no argument-free listing of actions).
   */
  function QueryActions(store: Store, actionId: Option<string>): (r: QueryResult<Action>)
    ensures Truthy(actionId) ==> r.One? && IsFirstMatch(store.actions, ActionKey, actionId, r.found)
    ensures !Truthy(actionId) ==> r == All(store.actions)
  {
    Lookup(store.actions, ActionKey, actionId)
  }

  /** `Query.response`. */
  function QueryResponse(store: Store, responseId: Option<string>): (r: QueryResult<Response>)
    ensures Truthy(responseId) ==> r.One? && IsFirstMatch(store.responses, ResponseKey, responseId, r.found)
    ensures !Truthy(responseId) ==> r == All(store.responses)
  {
    Lookup(store.responses, ResponseKey, responseId)
  }

  /** `Query.responses`. */
  function QueryResponses(store: Store): (r: seq<Response>)
    ensures r == store.responses
    ensures QueryResponse(store, None) == All(r)
  {
    store.responses
  }

  /** `Query.resourceTemplate`. */
  function QueryResourceTemplate(store: Store, resourceTemplateId: Option<string>): (r: QueryResult<ResourceTemplate>)
    ensures Truthy(resourceTemplateId) ==>
      r.One? && IsFirstMatch(store.resourceTemplates, TemplateKey, resourceTemplateId, r.found)
    ensures !Truthy(resourceTemplateId) ==> r == All(store.resourceTemplates)
  {
    Lookup(store.resourceTemplates, TemplateKey, resourceTemplateId)
  }

  /** `Query.resourceTemplates`. */
  function QueryResourceTemplates(store: Store): (r: seq<ResourceTemplate>)
    ensures r == store.resourceTemplates
    ensures QueryResourceTemplate(store, None) == All(r)
  {
    store.resourceTemplates
  }

  /**
   * A missing id and the empty-string id are both falsy: each id-taking
   * query then agrees with the matching listing query, which is the stored
   * collection.
   */
  lemma FalsyIdListsCollection(store: Store, id: Option<string>)
    requires id == None || id == Some("")
    ensures QueryNode(store, id) == All(QueryNodes(store)) && QueryNodes(store) == store.nodes
    ensures QueryTrigger(store, id) == All(QueryTriggers(store)) && QueryTriggers(store) == store.triggers
    ensures QueryActions(store, id) == All(store.actions)
    ensures QueryResponse(store, id) == All(QueryResponses(store)) && QueryResponses(store) == store.responses
    ensures QueryResourceTemplate(store, id) == All(QueryResourceTemplates(store))
    ensures QueryResourceTemplates(store) == store.resourceTemplates
  {
  }

  /**
   * A lookup by an id no node carries is an empty result, not a failure;
   * with unique ids, a lookup by a stored node's id returns that node.
   */
  lemma NodeLookupOutcomes(store: Store, id: string)
    requires id != ""
    ensures (forall i :: 0 <= i < |store.nodes| ==> store.nodes[i].id != id) ==>
      QueryNode(store, Some(id)) == One(None)
    ensures forall i :: 0 <= i < |store.nodes| && store.nodes[i].id == id && UniqueKeys(store.nodes, NodeKey) ==>
      QueryNode(store, Some(id)) == One(Some(store.nodes[i]))
  {
  }

  // ----- NodeObject and Trigger field resolvers -----

  /**
   * `NodeObject.trigger`: the first trigger whose id is the node's `trigger`
   * field; `undefined` (no trigger) when the field is missing or dangling.
   */
  function NodeTrigger(store: Store, node: Node): (r: Option<Trigger>)
    ensures IsFirstMatch(store.triggers, TriggerKey, node.trigger, r)
    ensures node.trigger.None? ==> r.None?
  {
    FindById(store.triggers, TriggerKey, node.trigger)
  }

  /**
   * `Trigger.resourceTemplate`: the first template whose id is the trigger's
   * `resourceTemplateId`; none when the field is missing or dangling.
   */
  function TriggerResourceTemplate(store: Store, trigger: Trigger): (r: Option<ResourceTemplate>)
    ensures IsFirstMatch(store.resourceTemplates, TemplateKey, trigger.resourceTemplateId, r)
    ensures trigger.resourceTemplateId.None? ==> r.None?
  {
    FindById(store.resourceTemplates, TemplateKey, trigger.resourceTemplateId)
  }

  /**
   * `NodeObject.responses`: each listed id mapped to its first matching
   * response, an unmatched id giving `undefined` in its own place; the empty
   * list when the field is not an array.
   */
  function NodeResponses(store: Store, node: Node): (r: seq<Option<Response>>)
    ensures !node.responses.Ids? ==> r == []
    ensures node.responses.Ids? ==> |r| == |node.responses.ids|
    ensures node.responses.Ids? ==> forall i :: 0 <= i < |r| ==>
      IsFirstMatch(store.responses, ResponseKey, Some(node.responses.ids[i]), r[i])
  {
    match node.responses
    case Ids(ids) =>
      seq(|ids|, i requires 0 <= i < |ids| => FindById(store.responses, ResponseKey, Some(ids[i])))
    case _ => []
  }

  /** `{ ...action, resourceTemplate: t }`: a fresh record carrying every field of `base` and the template. */
  datatype ActionWithTemplate = ActionWithTemplate(base: Action, resourceTemplate: Option<ResourceTemplate>)

  /**
   * The `map` callback of `NodeObject.postActions`: the first action with the
   * id, spread into a fresh record whose `resourceTemplate` is the first
   * template with the action's `resourceTemplateId`; `null` when no action
   * has the id.
   */
  function ExpandPostAction(store: Store, id: string): (r: Option<ActionWithTemplate>)
    ensures r.None? <==> !Contains(store.actions, ActionKey, Some(id))
    ensures r.Some? ==> IsFirstMatch(store.actions, ActionKey, Some(id), Some(r.value.base))
    ensures r.Some? ==>
      IsFirstMatch(store.resourceTemplates, TemplateKey, r.value.base.resourceTemplateId, r.value.resourceTemplate)
  {
    match FindById(store.actions, ActionKey, Some(id))
    case None => None
    case Some(action) =>
      Some(ActionWithTemplate(action, FindById(store.resourceTemplates, TemplateKey, action.resourceTemplateId)))
  }

  /** The ids mapped through the callback, before `null`s are filtered out. */
  function ExpandedIds(store: Store, ids: seq<string>): (r: seq<Option<ActionWithTemplate>>)
    ensures |r| == |ids|
    ensures forall i :: 0 <= i < |ids| ==> r[i] == ExpandPostAction(store, ids[i])
  {
    seq(|ids|, i requires 0 <= i < |ids| => ExpandPostAction(store, ids[i]))
  }

  /**
   * `NodeObject.postActions`: `null` when the field is not an array;
   * otherwise the expanded actions of the ids that match, in order.
   */
  function NodePostActions(store: Store, node: Node): (r: Option<seq<ActionWithTemplate>>)
    ensures r.None? <==> !node.postActions.Ids?
    ensures r.Some? ==> |r.value| <= |node.postActions.ids|
  {
    match node.postActions
    case Ids(ids) =>
      var expanded := ExpandedIds(store, ids);
      CompactKeepsPresentInOrder(expanded);
      Some(Compact(expanded))
    case _ => None
  }

  /** The positions of the listed post-action ids that some action carries, in increasing order. */
  function MatchedPositions(store: Store, ids: seq<string>): seq<nat> {
    PresentPositions(ExpandedIds(store, ids))
  }

  /**
   * For an array of ids, `NodeObject.postActions` is the subsequence of the
   * ids that match an action, in their original order: the k-th result
   * belongs to the k-th matched position, it is the first action with that
   * id carried over unchanged, its `resourceTemplate` is the first template
   * with the action's `resourceTemplateId`, and a position is matched
   * exactly when some action has its id.
   */
  lemma PostActionsAreMatchedIdsInOrder(store: Store, node: Node)
    requires node.postActions.Ids?
    ensures var ids, pos := node.postActions.ids, MatchedPositions(store, node.postActions.ids);
      && NodePostActions(store, node).Some?
      && |NodePostActions(store, node).value| == |pos|
      && (forall k, l :: 0 <= k < l < |pos| ==> pos[k] < pos[l])
      && (forall j :: 0 <= j < |ids| ==> (j in pos <==> Contains(store.actions, ActionKey, Some(ids[j]))))
      && forall k :: 0 <= k < |pos| ==> (
        && pos[k] < |ids|
        && var e := NodePostActions(store, node).value[k];
        && IsFirstMatch(store.actions, ActionKey, Some(ids[pos[k]]), Some(e.base))
        && IsFirstMatch(store.resourceTemplates, TemplateKey, e.base.resourceTemplateId, e.resourceTemplate))
  {
    var ids := node.postActions.ids;
    var expanded := ExpandedIds(store, ids);
    CompactKeepsPresentInOrder(expanded);
    var pos, r := PresentPositions(expanded), Compact(expanded);
    assert NodePostActions(store, node) == Some(r);
    forall k | 0 <= k < |pos|
      ensures pos[k] < |ids| && IsFirstMatch(store.actions, ActionKey, Some(ids[pos[k]]), Some(r[k].base))
      ensures IsFirstMatch(store.resourceTemplates, TemplateKey, r[k].base.resourceTemplateId, r[k].resourceTemplate)
    {
      assert expanded[pos[k]] == Some(r[k]);
    }
  }

  /** A missing `postActions` field and an empty array are told apart: `null` versus `[]`. */
  lemma PostActionsAbsentVersusEmpty(store: Store, node: Node)
    ensures node.postActions == Absent ==> NodePostActions(store, node) == None
    ensures node.postActions == Ids([]) ==> NodePostActions(store, node) == Some([])
  {
  }
}
