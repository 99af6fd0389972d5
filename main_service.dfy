/** The AI integration service of src/services: canned replies chosen by agent,
    an echoing `sendRequest` that turns any internal fault into an in-band error
    response, the mock agent catalog and the seeded, per-agent history.
    The random reply index is the parameter `pick`, the clock the parameter `now`,
    and an exception raised inside a `try` block the parameter `fault`. */
module MainService {
  import opened Base
  import opened Chat
  import opened Catalog

  /** The message of the error response of `sendRequest`. */
  const Apology := "Sorry, I encountered an error processing your request."

  /** `agentMap[agentName] || 'executive'` as written: an inherited property name
      yields that (truthy) prototype member rather than an agent id. */
  function MapAgentNameToIdAsWritten(agentName: string): (id: Lookup<string>)
    ensures !id.Missing?
    ensures id.Own? ==> id.value in ReplyPools
    ensures id.Inherited? <==> agentName in ObjectPrototypeKeys
  {
    RecordsAvoidPrototype();
    match RecordGet(AgentNameMap, agentName)
    case Missing => Own("executive")
    case found => found
  }

  /** `mapAgentNameToId("toString")` is a function, not an agent id. */
  lemma MapAgentNameToIdLeaksPrototype()
    ensures MapAgentNameToIdAsWritten("toString") == Inherited("toString")
  {
    RecordsAvoidPrototype();
  }

  /** The five display names map to their agent ids; every other name, inherited
      property names included, maps to 'executive'. */
  function MapAgentNameToId(agentName: string): (id: string)
    ensures id in ReplyPools
    ensures id == "development" <==> agentName == "Development Agent"
    ensures id == "marketing" <==> agentName == "Marketing Agent"
    ensures id == "finance" <==> agentName == "Finance Agent"
    ensures id == "customer" <==> agentName == "Customer Relations Agent"
    ensures id == "executive" <==>
      agentName !in {"Development Agent", "Marketing Agent", "Finance Agent", "Customer Relations Agent"}
  {
    ReplyPoolKeys();
    if agentName in AgentNameMap then AgentNameMap[agentName] else "executive"
  }

  /** On every name that is not an inherited property name the written lookup
      yields the same id. */
  lemma MapAgentNameToIdAgreesOffPrototype(agentName: string)
    requires agentName !in ObjectPrototypeKeys
    ensures MapAgentNameToIdAsWritten(agentName) == Own(MapAgentNameToId(agentName))
  {
  }

  /** `generateResponse`: a reply from the pool of the agent the display name maps
      to; that pool always exists, so the fallback in the pool lookup never fires.
      The message text does not influence the reply. */
  function GenerateResponse(message: string, agentName: string, pick: nat): (reply: string)
    requires pick < PoolSize
    ensures MapAgentNameToId(agentName) in ReplyPools
    ensures reply in ReplyPools[MapAgentNameToId(agentName)]
    ensures reply != ""
  {
    PickReply(MapAgentNameToId(agentName), pick)
  }

  /** `getMockResponse` as written: for an inherited property name it yields
      `undefined` (`None`). */
  function GetMockResponseAsWritten(request: AgentRequest, pick: nat): (reply: Option<string>)
    requires pick < PoolSize
    ensures reply.Some? ==> reply.value != ""
    ensures reply.None? <==> request.agentId in ObjectPrototypeKeys
  {
    RecordsAvoidPrototype();
    PickReplyAsWritten(request.agentId, pick)
  }

  /** An agent id of "constructor" gets no reply text at all. */
  lemma GetMockResponseUndefinedForConstructor()
    ensures GetMockResponseAsWritten(AgentRequest("constructor", "Hello", "current-user"), 0) == None
  {
    PickReplyUndefinedOnPrototype("constructor", 0);
  }

  /** `getMockResponse` with own-key lookup: a non-empty reply from the pool of
      `request.agentId`, or from the executive pool when that id has no pool. */
  function GetMockResponse(request: AgentRequest, pick: nat): (reply: string)
    requires pick < PoolSize
    ensures reply != ""
    ensures request.agentId in ReplyPools ==> reply in ReplyPools[request.agentId]
    ensures request.agentId !in ReplyPools ==> reply in ExecutivePool
  {
    PickReply(request.agentId, pick)
  }

  /** `sendRequest`: always answers (never throws), echoes the request's agent id
      whatever it is, stamps the response with `now`, and reports a pool reply with
      status 'success', or the apology with status 'error' after an internal fault. */
  function SendRequest(request: AgentRequest, now: int, pick: nat, fault: bool): (response: AgentResponse)
    requires pick < PoolSize
    ensures response.agentId == request.agentId
    ensures response.timestamp == now
    ensures response.status == (if fault then Error else Success)
    ensures !fault ==> response.message in ResponsesFor(request.agentId) && response.message != ""
    ensures fault ==> response.message == Apology
  {
    if fault then AgentResponse(request.agentId, Apology, now, Error)
    else AgentResponse(request.agentId, GetMockResponse(request, pick), now, Success)
  }

  /** `sendRequest` as written, over the inherited-key lookup: it agrees with
      `SendRequest` on every id that is not an inherited property name, and on
      those it reports 'success' with no message at all. */
  function SendRequestAsWritten(request: AgentRequest, now: int, pick: nat, fault: bool): (response: RawResponse)
    requires pick < PoolSize
    ensures response.agentId == request.agentId && response.timestamp == now
    ensures response.status == (if fault then Error else Success)
    ensures fault ==> response.message == Some(Apology)
    ensures !fault && request.agentId !in ObjectPrototypeKeys ==>
      response.message == Some(SendRequest(request, now, pick, fault).message)
    ensures !fault && request.agentId in ObjectPrototypeKeys ==> response.message == None
  {
    if fault then RawResponse(request.agentId, Some(Apology), now, Error)
    else
      assert request.agentId !in ObjectPrototypeKeys ==>
        GetMockResponseAsWritten(request, pick) == Some(GetMockResponse(request, pick)) by {
        if request.agentId !in ObjectPrototypeKeys {
          PickReplyAgreesOffPrototype(request.agentId, pick);
        }
      }
      RawResponse(request.agentId, GetMockResponseAsWritten(request, pick), now, Success)
  }

  /** `getMockAgents`: five agents with distinct ids, the executive first. */
  function GetMockAgents(): (agents: seq<Agent>)
    ensures |agents| == 5
    ensures agents[0].id == "executive" && agents[0].name == "Executive Meta-Agent"
    ensures forall i, j :: 0 <= i < j < |agents| ==> agents[i].id != agents[j].id
  {
    ServiceAgents
  }

  /** `getAvailableAgents`: the mock catalog, or the empty list when the `try`
      block faults. */
  function GetAvailableAgents(fault: bool): (agents: seq<Agent>)
    ensures fault ==> agents == []
    ensures !fault ==> |agents| == 5 && agents[0].id == "executive" && agents[0].name == "Executive Meta-Agent"
    ensures !fault ==> forall i, j :: 0 <= i < j < |agents| ==> agents[i].id != agents[j].id
  {
    if fault then [] else GetMockAgents()
  }

  /** `getMockConversationHistory`: exactly the seeded user messages and the
      messages of `agentId`, in seed order; `userId` plays no part. */
  function GetMockConversationHistory(userId: string, agentId: string): (history: seq<Message>)
    ensures forall m :: m in history <==> m in SeedHistory && (m.sender == User || m.agent == Some(agentId))
    ensures IsSubsequence(history, SeedHistory)
    ensures agentId != "executive" && agentId != "finance" ==> history == [SeedHistory[1]]
  {
    HistoryFor(agentId)
  }

  /** `getConversationHistory`: the mock history, or the empty list when the `try`
      block faults. */
  function GetConversationHistory(userId: string, agentId: string, fault: bool): (history: seq<Message>)
    ensures fault ==> history == []
    ensures !fault ==> forall m :: m in history <==> m in SeedHistory && (m.sender == User || m.agent == Some(agentId))
    ensures !fault ==> IsSubsequence(history, SeedHistory)
    ensures !fault && agentId != "executive" && agentId != "finance" ==> history == [SeedHistory[1]]
  {
    if fault then [] else GetMockConversationHistory(userId, agentId)
  }

  /** The executive's history holds the greeting, the user's question and the
      executive's answer, and nothing of the finance agent. */
  lemma ExecutiveHistory(userId: string)
    ensures GetMockConversationHistory(userId, "executive") == SeedHistory[..3]
  {
    var p := ShownBy("executive");
    assert !p(SeedHistory[3]);
    assert Filter(p, SeedHistory[3..]) == [];
    assert Filter(p, SeedHistory[2..]) == [SeedHistory[2]];
    assert Filter(p, SeedHistory[1..]) == SeedHistory[1..3];
  }
}
