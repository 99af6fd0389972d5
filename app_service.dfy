/** The AI integration service of the sandbees-app copy: the same canned replies
    and catalog as the other service, but `sendRequest` has no error path and
    every call first waits for a fixed mock delay (not modelled). */
module AppService {
  import opened Base
  import opened Chat
  import opened Catalog

  /** `generateMockResponse` as written: for an inherited property name it yields
      `undefined` (`None`). */
  function GenerateMockResponseAsWritten(request: AgentRequest, pick: nat): (reply: Option<string>)
    requires pick < PoolSize
    ensures reply.Some? ==> reply.value != ""
    ensures reply.None? <==> request.agentId in ObjectPrototypeKeys
  {
    RecordsAvoidPrototype();
    PickReplyAsWritten(request.agentId, pick)
  }

  /** An agent id of "toString" gets no reply text at all. */
  lemma GenerateMockResponseUndefinedForToString()
    ensures GenerateMockResponseAsWritten(AgentRequest("toString", "Hello", "user"), 2) == None
  {
    PickReplyUndefinedOnPrototype("toString", 2);
  }

  /** `generateMockResponse` with own-key lookup: a non-empty member of the fixed
      pool of `request.agentId`, or of the executive pool for an unknown agent. */
  function GenerateMockResponse(request: AgentRequest, pick: nat): (reply: string)
    requires pick < PoolSize
    ensures reply != ""
    ensures request.agentId in ReplyPools ==> reply in ReplyPools[request.agentId]
    ensures request.agentId !in ReplyPools ==> reply in ExecutivePool
  {
    PickReply(request.agentId, pick)
  }

  /** `sendRequest`: echoes the request's agent id, always reports 'success', and
      carries a reply drawn from the pools. */
  function SendRequest(request: AgentRequest, now: int, pick: nat): (response: AgentResponse)
    requires pick < PoolSize
    ensures response.agentId == request.agentId
    ensures response.status == Success
    ensures response.timestamp == now
    ensures response.message in ResponsesFor(request.agentId) && response.message != ""
  {
    AgentResponse(request.agentId, GenerateMockResponse(request, pick), now, Success)
  }

  /** `sendRequest` as written, over the inherited-key lookup: it agrees with
      `SendRequest` on every id that is not an inherited property name, and on
      those it reports 'success' with no message at all. */
  function SendRequestAsWritten(request: AgentRequest, now: int, pick: nat): (response: RawResponse)
    requires pick < PoolSize
    ensures response.agentId == request.agentId && response.timestamp == now
    ensures response.status == Success
    ensures request.agentId !in ObjectPrototypeKeys ==>
      response.message == Some(SendRequest(request, now, pick).message)
    ensures request.agentId in ObjectPrototypeKeys ==> response.message == None
  {
    assert request.agentId !in ObjectPrototypeKeys ==>
      GenerateMockResponseAsWritten(request, pick) == Some(GenerateMockResponse(request, pick)) by {
      if request.agentId !in ObjectPrototypeKeys {
        PickReplyAgreesOffPrototype(request.agentId, pick);
      }
    }
    RawResponse(request.agentId, GenerateMockResponseAsWritten(request, pick), now, Success)
  }

  /** `getAvailableAgents`: five agents with distinct ids, the executive first. */
  function GetAvailableAgents(): (agents: seq<Agent>)
    ensures |agents| == 5
    ensures agents[0].id == "executive" && agents[0].name == "Executive Meta-Agent"
    ensures forall i, j :: 0 <= i < j < |agents| ==> agents[i].id != agents[j].id
  {
    ServiceAgents
  }

  /** `getConversationHistory`: exactly the seeded user messages and the messages
      of `agentId`, in seed order; for an agent with no seeded messages only the
      one user message is left. */
  function GetConversationHistory(userId: string, agentId: string): (history: seq<Message>)
    ensures forall m :: m in history <==> m in SeedHistory && (m.sender == User || m.agent == Some(agentId))
    ensures IsSubsequence(history, SeedHistory)
    ensures agentId != "executive" && agentId != "finance" ==>
      history == [SeedHistory[1]] && history[0].sender == User
  {
    HistoryFor(agentId)
  }

  /** The user id does not affect the history. */
  lemma HistoryIgnoresUser(userA: string, userB: string, agentId: string)
    ensures GetConversationHistory(userA, agentId) == GetConversationHistory(userB, agentId)
  {
  }
}
