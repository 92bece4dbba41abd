/** The plain request data the provisioning helpers of
    cdk/lib/connect-sdk-utils.ts hand to CDK custom resources: the Contact
    Lens rule function of `createRule`, the create and delete inputs of
    `updateQueueOutboundCallerConfig`, and the exact-name search requests.
    The `${this.scope}` prefix of a physical id is the construct's text form,
    taken here as a parameter. */
module ConnectSdkRequests {

  import opened Wrappers
  import opened Text

  // ---------------------------------------------------------------------
  // The rule function of `createRule` (lines 470-490)
  // ---------------------------------------------------------------------

  const RuleVersion := "2022-11-25"
  const QueueIdPath := "$.ContactLens.PostCall.Queue.QueueId"
  const AgentIdPath := "$.ContactLens.PostCall.Agent.AgentId"

  /** One comparison of the rule language: an operator applied to a list of
      values and the contact attribute at `comparisonValue`. */
  datatype Condition = Condition(operator: string, operands: seq<string>, comparisonValue: string, negate: bool)

  datatype RuleFunction = RuleFunction(version: string, operator: string, operands: seq<Condition>)

  /** Lines 471-490: fire on any of the queues or any of the agents. */
  function CreateRuleFunction(queueIds: seq<string>, agentIds: seq<string>): (r: RuleFunction)
    ensures r.version == RuleVersion && r.operator == "OR" && |r.operands| == 2
    ensures forall i :: 0 <= i < |r.operands| ==>
      r.operands[i].operator == "CONTAINS_ANY" && !r.operands[i].negate
    ensures r.operands[0].operands == queueIds && r.operands[0].comparisonValue == QueueIdPath
    ensures r.operands[1].operands == agentIds && r.operands[1].comparisonValue == AgentIdPath
  {
    RuleFunction(RuleVersion, "OR", [
      Condition("CONTAINS_ANY", queueIds, QueueIdPath, false),
      Condition("CONTAINS_ANY", agentIds, AgentIdPath, false)
    ])
  }

  /** The contact a rule is evaluated against: each attribute path with its
      value. */
  type ContactFacts = map<string, string>

  /** What a condition means: `CONTAINS_ANY` holds when the contact's value
      at the path is one of the operands; `negate` flips the outcome. Other
      operators are not used here and hold for no contact. */
  predicate ConditionHolds(c: Condition, facts: ContactFacts)
  {
    var hit := c.operator == "CONTAINS_ANY" && c.comparisonValue in facts
      && facts[c.comparisonValue] in c.operands;
    if c.negate then !hit else hit
  }

  /** An `OR` rule fires when one of its conditions holds. */
  predicate Fires(r: RuleFunction, facts: ContactFacts)
  {
    r.operator == "OR" && exists i :: 0 <= i < |r.operands| && ConditionHolds(r.operands[i], facts)
  }

  /** The rule of `createRule` fires for a post-call analysis exactly when
      its queue is one of the listed queues or its agent one of the listed
      agents. */
  lemma RuleFiresIff(queueIds: seq<string>, agentIds: seq<string>, queueId: string, agentId: string)
    ensures var facts := map[QueueIdPath := queueId, AgentIdPath := agentId];
      Fires(CreateRuleFunction(queueIds, agentIds), facts) <==> queueId in queueIds || agentId in agentIds
  {
    var r := CreateRuleFunction(queueIds, agentIds);
    var facts := map[QueueIdPath := queueId, AgentIdPath := agentId];
    assert QueueIdPath != AgentIdPath by {
      assert QueueIdPath[23] != AgentIdPath[23];
    }
    assert ConditionHolds(r.operands[0], facts) <==> queueId in queueIds;
    assert ConditionHolds(r.operands[1], facts) <==> agentId in agentIds;
  }

  /** With both lists empty the rule never fires. */
  lemma EmptyRuleNeverFires(facts: ContactFacts)
    ensures !Fires(CreateRuleFunction([], []), facts)
  {
    var r := CreateRuleFunction([], []);
    forall i | 0 <= i < |r.operands|
      ensures !ConditionHolds(r.operands[i], facts)
    {
    }
  }

  // ---------------------------------------------------------------------
  // The queue outbound-caller configuration (lines 311-351)
  // ---------------------------------------------------------------------

  const CallerConfigAction := "UpdateQueueOutboundCallerConfigCommand"

  /** An `UpdateQueueOutboundCallerConfigCommand` custom-resource input; an
      `undefined` field is `None`. */
  datatype CallerConfigInput = CallerConfigInput(
    service: string, action: string, instanceId: string, queueId: string,
    outboundFlowId: Option<string>, outboundCallerIdNumberId: Option<string>,
    physicalResourceId: string)

  /** Line 323: the physical id of the create-time input. */
  function CreateCallerConfigId(queueId: string, flowId: string): (r: string)
    ensures StartsWith(r, CallerConfigAction)
    ensures |r| == |CallerConfigAction| + |queueId| + 1 + |flowId|
  {
    var r := CallerConfigAction + queueId + "-" + flowId;
    assert r[..|CallerConfigAction|] == CallerConfigAction;
    r
  }

  /** Line 337: the physical id of the delete-time input. */
  function DeleteCallerConfigId(scope: string): (r: string)
    ensures StartsWith(r, scope) && EndsWith(r, CallerConfigAction)
    ensures |r| == |scope| + |CallerConfigAction|
  {
    var r := scope + CallerConfigAction;
    assert r[..|scope|] == scope;
    assert r[|r| - |CallerConfigAction|..] == CallerConfigAction;
    r
  }

  /** Lines 312-324: set the queue's outbound flow and caller id number. */
  function CreateCallerConfig(instanceId: string, queueId: string, flowId: string, phoneNumberId: string): (r: CallerConfigInput)
    ensures r.action == CallerConfigAction && r.instanceId == instanceId && r.queueId == queueId
    ensures r.outboundFlowId == Some(flowId) && r.outboundCallerIdNumberId == Some(phoneNumberId)
    ensures r.service == "Connect" && r.physicalResourceId == CreateCallerConfigId(queueId, flowId)
  {
    CallerConfigInput("Connect", CallerConfigAction, instanceId, queueId,
      Some(flowId), Some(phoneNumberId), CreateCallerConfigId(queueId, flowId))
  }

  /** Lines 326-338: clear both settings of the same queue. */
  function DeleteCallerConfig(instanceId: string, queueId: string, scope: string): (r: CallerConfigInput)
    ensures r.action == CallerConfigAction && r.instanceId == instanceId && r.queueId == queueId
    ensures r.outboundFlowId == None && r.outboundCallerIdNumberId == None
    ensures r.service == "Connect" && r.physicalResourceId == DeleteCallerConfigId(scope)
  {
    CallerConfigInput("Connect", CallerConfigAction, instanceId, queueId, None, None, DeleteCallerConfigId(scope))
  }

  /** The delete input undoes the create input: same service, action,
      instance and queue, with both settings cleared. */
  lemma DeleteMatchesCreate(instanceId: string, queueId: string, flowId: string, phoneNumberId: string, scope: string)
    ensures var c := CreateCallerConfig(instanceId, queueId, flowId, phoneNumberId);
      var d := DeleteCallerConfig(instanceId, queueId, scope);
      && c.service == d.service && c.action == d.action
      && c.instanceId == d.instanceId && c.queueId == d.queueId
      && c.outboundFlowId.Some? && d.outboundFlowId.None?
      && c.outboundCallerIdNumberId.Some? && d.outboundCallerIdNumberId.None?
  {
  }

  /** The flow id read back from a create-time id whose queue id is known. */
  function FlowIdOf(id: string, queueId: string): Option<string>
  {
    var front := CallerConfigAction + queueId + "-";
    if StartsWith(id, front) then Some(id[|front|..]) else None
  }

  /** Given the queue id, the create-time id determines the flow id. */
  lemma CreateIdRoundTrip(queueId: string, flowId: string)
    ensures FlowIdOf(CreateCallerConfigId(queueId, flowId), queueId) == Some(flowId)
  {
    var front := CallerConfigAction + queueId + "-";
    var id := CreateCallerConfigId(queueId, flowId);
    assert id == front + flowId;
    assert id[..|front|] == front;
  }

  /** Queue ids of one length never share a create-time id. */
  lemma CreateIdInjective(q1: string, f1: string, q2: string, f2: string)
    requires |q1| == |q2|
    requires CreateCallerConfigId(q1, f1) == CreateCallerConfigId(q2, f2)
    ensures q1 == q2 && f1 == f2
  {
    var id := CreateCallerConfigId(q1, f1);
    var n := |CallerConfigAction|;
    assert id[n..n + |q1|] == q1;
    assert CreateCallerConfigId(q2, f2)[n..n + |q2|] == q2;
    CreateIdRoundTrip(q1, f1);
    CreateIdRoundTrip(q2, f2);
  }

  /** The `-` separator can sit in either id: queue `a-` with flow `b` and
      queue `a` with flow `-b` get the same create-time id. */
  lemma CreateIdCollision()
    ensures CreateCallerConfigId("a-", "b") == CreateCallerConfigId("a", "-b")
  {
    assert CallerConfigAction + "a-" + "-" + "b" == CallerConfigAction + "a" + "-" + "-b";
  }

  /** The delete-time id depends on the scope alone: unlike the create-time
      id, it names neither the queue nor the flow, so the delete inputs of
      two queues in one scope carry the same id. */
  lemma DeleteIdIgnoresQueue(instanceId: string, scope: string, q1: string, q2: string)
    ensures DeleteCallerConfig(instanceId, q1, scope).physicalResourceId
      == DeleteCallerConfig(instanceId, q2, scope).physicalResourceId
  {
  }

  // ---------------------------------------------------------------------
  // The exact-name searches (lines 248-309, 354-417, 439-468, 539-555)
  // ---------------------------------------------------------------------

  datatype SearchTarget = Queues | ContactFlows | RoutingProfiles | SecurityProfiles | Users

  /** How the physical id of a search is given: read from the response, or a
      fixed string. */
  datatype PhysicalId = FromResponse(path: string) | Fixed(id: string)

  datatype StringCondition = StringCondition(fieldName: string, value: string, comparisonType: string)

  datatype SearchInput = SearchInput(
    service: string, action: string, instanceId: string, maxResults: int,
    condition: StringCondition, physicalResourceId: PhysicalId)

  function SearchAction(t: SearchTarget): string
  {
    match t
    case Queues => "SearchQueuesCommand"
    case ContactFlows => "SearchContactFlowsCommand"
    case RoutingProfiles => "SearchRoutingProfilesCommand"
    case SecurityProfiles => "SearchSecurityProfilesCommand"
    case Users => "SearchUsersCommand"
  }

  /** The field a search compares the name against. */
  function SearchField(t: SearchTarget): string
  {
    match t
    case Queues => "Name"
    case ContactFlows => "name"
    case RoutingProfiles => "name"
    case SecurityProfiles => "name"
    case Users => "username"
  }

  /** The target a search action addresses. */
  function TargetOfAction(action: string): Option<SearchTarget>
  {
    if action == "SearchQueuesCommand" then Some(Queues)
    else if action == "SearchContactFlowsCommand" then Some(ContactFlows)
    else if action == "SearchRoutingProfilesCommand" then Some(RoutingProfiles)
    else if action == "SearchSecurityProfilesCommand" then Some(SecurityProfiles)
    else if action == "SearchUsersCommand" then Some(Users)
    else None
  }

  /** Each search action names its own target. */
  lemma SearchActionRoundTrip(t: SearchTarget)
    ensures TargetOfAction(SearchAction(t)) == Some(t)
  {
  }

  /** The request every helper builds: the first resource whose field equals
      the name exactly. */
  function Search(t: SearchTarget, instanceId: string, name: string, id: PhysicalId): (r: SearchInput)
    ensures r.service == "Connect" && TargetOfAction(r.action) == Some(t)
    ensures r.instanceId == instanceId && r.maxResults == 1
    ensures r.condition == StringCondition(SearchField(t), name, "EXACT")
    ensures r.physicalResourceId == id
  {
    SearchActionRoundTrip(t);
    SearchInput("Connect", SearchAction(t), instanceId, 1, StringCondition(SearchField(t), name, "EXACT"), id)
  }

  /** Lines 248-264. */
  function SearchQueueByName(instanceId: string, queueName: string): (r: SearchInput)
    ensures r.action == "SearchQueuesCommand" && r.condition == StringCondition("Name", queueName, "EXACT")
    ensures r.physicalResourceId == FromResponse("Queues.0.QueueId")
  {
    Search(Queues, instanceId, queueName, FromResponse("Queues.0.QueueId"))
  }

  /** Lines 280-296. */
  function SearchContactFlowByName(instanceId: string, contactFlowName: string): (r: SearchInput)
    ensures r.action == "SearchContactFlowsCommand" && r.condition == StringCondition("name", contactFlowName, "EXACT")
    ensures r.physicalResourceId == FromResponse("ContactFlows.0.Id")
  {
    Search(ContactFlows, instanceId, contactFlowName, FromResponse("ContactFlows.0.Id"))
  }

  /** Lines 354-371. */
  function RoutingProfileForName(instanceId: string, routingProfileName: string, scope: string): (r: SearchInput)
    ensures r.action == "SearchRoutingProfilesCommand" && r.condition == StringCondition("name", routingProfileName, "EXACT")
    ensures r.physicalResourceId == Fixed(scope + "GetRoutingProfile")
  {
    Search(RoutingProfiles, instanceId, routingProfileName, Fixed(scope + "GetRoutingProfile"))
  }

  /** Lines 386-403. */
  function SecurityProfileForName(instanceId: string, securityProfileName: string, scope: string): (r: SearchInput)
    ensures r.action == "SearchSecurityProfilesCommand" && r.condition == StringCondition("name", securityProfileName, "EXACT")
    ensures r.physicalResourceId == Fixed(scope + "GetSecurityProfile")
  {
    Search(SecurityProfiles, instanceId, securityProfileName, Fixed(scope + "GetSecurityProfile"))
  }

  /** Lines 439-455. */
  function SearchUserForUsername(instanceId: string, username: string, scope: string): (r: SearchInput)
    ensures r.action == "SearchUsersCommand" && r.condition == StringCondition("username", username, "EXACT")
    ensures r.physicalResourceId == Fixed(scope + "SearchUsers")
  {
    Search(Users, instanceId, username, Fixed(scope + "SearchUsers"))
  }

  /** Lines 540-555: the security profile named `Agent`. */
  function AgentSecurityProfileSearch(instanceId: string, scope: string): (r: SearchInput)
    ensures r.action == "SearchSecurityProfilesCommand" && r.condition == StringCondition("name", "Agent", "EXACT")
    ensures r.physicalResourceId == Fixed(scope + "SearchSecurityProfile")
  {
    Search(SecurityProfiles, instanceId, "Agent", Fixed(scope + "SearchSecurityProfile"))
  }

  /** Every helper asks for at most one resource whose field equals the
      requested name exactly, in the requested instance; the agent search
      asks for the profile named exactly `Agent`. */
  lemma SearchesAreExact(instanceId: string, name: string, scope: string)
    ensures forall r :: r in [
        SearchQueueByName(instanceId, name), SearchContactFlowByName(instanceId, name),
        RoutingProfileForName(instanceId, name, scope), SecurityProfileForName(instanceId, name, scope),
        SearchUserForUsername(instanceId, name, scope)] ==>
      r.maxResults == 1 && r.instanceId == instanceId
      && r.condition.value == name && r.condition.comparisonType == "EXACT"
    ensures var a := AgentSecurityProfileSearch(instanceId, scope);
      a.maxResults == 1 && a.instanceId == instanceId
      && a.condition.value == "Agent" && a.condition.comparisonType == "EXACT"
  {
  }

  /** Only the queue search compares against `Name`; the user search uses
      `username` and the others `name`. */
  lemma SearchFieldsByTarget(t: SearchTarget)
    ensures SearchField(t) == "Name" <==> t == Queues
    ensures SearchField(t) == "username" <==> t == Users
    ensures SearchField(t) == "name" <==> t in {ContactFlows, RoutingProfiles, SecurityProfiles}
  {
  }

  /** The routing- and security-profile and user searches fix their
      physical id by scope alone, so it does not depend on the name searched
      for; the queue and contact-flow searches take it from the response. */
  lemma FixedIdsIgnoreName(instanceId: string, a: string, b: string, scope: string)
    ensures RoutingProfileForName(instanceId, a, scope).physicalResourceId
      == RoutingProfileForName(instanceId, b, scope).physicalResourceId
    ensures SecurityProfileForName(instanceId, a, scope).physicalResourceId
      == SecurityProfileForName(instanceId, b, scope).physicalResourceId
    ensures SearchUserForUsername(instanceId, a, scope).physicalResourceId
      == SearchUserForUsername(instanceId, b, scope).physicalResourceId
    ensures SearchQueueByName(instanceId, a).physicalResourceId.FromResponse?
    ensures SearchContactFlowByName(instanceId, a).physicalResourceId.FromResponse?
  {
  }
}
