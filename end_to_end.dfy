/**
 * One small dataset run through the resolvers: a node with a trigger, one
 * known and one unknown response id, and one post-action, all pointing at
 * the same resource template.
 */
module EndToEnd {
  import opened Wrappers
  import opened JsValues
  import opened Records
  import opened Resolvers

  function BareNode(id: string, trigger: Option<string>, responses: IdListField, postActions: IdListField): Node {
    Node(id, 0, None, id, None, Undefined, None, None, Undefined, None, None, None,
      trigger, responses, None, postActions, None, Undefined, None, None, None)
  }

  function BareTrigger(id: string, resourceTemplateId: Option<string>): Trigger {
    Trigger(id, 0, None, id, None, Undefined, None, resourceTemplateId)
  }

  function BareAction(id: string, resourceTemplateId: Option<string>): Action {
    Action(id, 0, None, id, None, Undefined, None, resourceTemplateId)
  }

  function BareResponse(id: string): Response {
    Response(id, 0, None, id, None, Undefined, Undefined)
  }

  function BareTemplate(id: string): ResourceTemplate {
    ResourceTemplate(id, 0, None, id, None, None, Undefined, None, None, None, None, None, None)
  }

  function Sample(): Store {
    Store(
      [BareNode("n1", Some("t1"), Ids(["r1", "r9"]), Ids(["a1"]))],
      [BareTrigger("t1", Some("rt1"))],
      [BareAction("a1", Some("rt1"))],
      [BareResponse("r1")],
      [BareTemplate("rt1")])
  }

  /**
   * Expanding node "n1": its trigger's template is "rt1", its responses are
   * "r1" followed by `undefined` for the unknown "r9" (kept in place, not
   * dropped), and its one post-action carries template "rt1".
   */
  lemma SampleExpansion()
    ensures QueryNode(Sample(), Some("n1")) == One(Some(Sample().nodes[0]))
    ensures NodeTrigger(Sample(), Sample().nodes[0]) == Some(Sample().triggers[0])
    ensures TriggerResourceTemplate(Sample(), Sample().triggers[0]) == Some(BareTemplate("rt1"))
    ensures NodeResponses(Sample(), Sample().nodes[0]) == [Some(BareResponse("r1")), None]
    ensures NodePostActions(Sample(), Sample().nodes[0]) ==
      Some([ActionWithTemplate(BareAction("a1", Some("rt1")), Some(BareTemplate("rt1")))])
  {
    var s := Sample();
    var n := s.nodes[0];
    var e := ExpandPostAction(s, "a1");
    assert e == Some(ActionWithTemplate(BareAction("a1", Some("rt1")), Some(BareTemplate("rt1"))));
    assert ExpandedIds(s, ["a1"]) == [e];
    assert [e][..0] == [];
    assert ArrayOps.Compact([e]) == [e.value];
  }
}
