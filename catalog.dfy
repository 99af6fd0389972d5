/** The constant data the two AI integration services are built on: the canned
    reply pools keyed by agent id, the display-name table, the five agents of the
    mock catalog, the seeded conversation, and how a JavaScript object literal
    answers `record[key]` (own keys first, then the keys every object inherits). */
module Catalog {
  import opened Base
  import opened Chat

  /** Every reply pool holds this many canned replies. */
  const PoolSize: nat := 3

  const ExecutivePool: seq<string> := [
    "I understand your request. Let me coordinate with the appropriate agents to help you with this task.",
    "I'll prioritize this task and ensure it gets completed efficiently.",
    "I've analyzed your request and will allocate the necessary resources to address it."
  ]

  const DevelopmentPool: seq<string> := [
    "I can help you with that development task. Let me analyze the requirements and propose a solution.",
    "I'll review the code and identify any potential issues or improvements.",
    "I can implement that feature for you. I'll start working on it right away."
  ]

  const MarketingPool: seq<string> := [
    "Based on market trends, I recommend focusing on these key messaging points for your campaign.",
    "I've analyzed your target audience and can suggest content strategies that would resonate with them.",
    "I can draft social media content that aligns with your brand voice and marketing objectives."
  ]

  const FinancePool: seq<string> := [
    "I've analyzed your financial data and identified several opportunities for optimization.",
    "Based on your current cash flow, I recommend adjusting your budget allocations in these areas.",
    "I can prepare a detailed financial forecast to help with your planning process."
  ]

  const CustomerPool: seq<string> := [
    "I can help you craft a response to this customer inquiry that addresses their concerns.",
    "Based on this customer's history, I recommend the following approach to strengthen the relationship.",
    "I've analyzed customer feedback patterns and can suggest improvements to your service process."
  ]

  /** The `responses` record: agent id to its reply pool. */
  const ReplyPools: map<string, seq<string>> := map[
    "executive" := ExecutivePool,
    "development" := DevelopmentPool,
    "marketing" := MarketingPool,
    "finance" := FinancePool,
    "customer" := CustomerPool
  ]

  /** The `agentMap` record: display name to agent id. */
  const AgentNameMap: map<string, string> := map[
    "Executive Meta-Agent" := "executive",
    "Development Agent" := "development",
    "Marketing Agent" := "marketing",
    "Finance Agent" := "finance",
    "Customer Relations Agent" := "customer"
  ]

  /** The property names every plain object inherits from `Object.prototype`;
      each of them reads as a function or an object, never as `undefined`. */
  const ObjectPrototypeKeys: set<string> := {
    "constructor", "hasOwnProperty", "isPrototypeOf", "propertyIsEnumerable",
    "toLocaleString", "toString", "valueOf", "__proto__",
    "__defineGetter__", "__defineSetter__", "__lookupGetter__", "__lookupSetter__"
  }

  /** What `record[key]` yields on an object literal: an own value, an inherited
      (truthy) prototype member, or `undefined`. */
  datatype Lookup<T> = Own(value: T) | Inherited(key: string) | Missing

  /** A service response as the code builds it, whose message may be `undefined` (`None`). */
  datatype RawResponse = RawResponse(agentId: string, message: Option<string>, timestamp: int, status: ResponseStatus)

  function RecordGet<T>(record: map<string, T>, key: string): (r: Lookup<T>)
    ensures r.Own? <==> key in record
    ensures r.Own? ==> r.value == record[key]
    ensures r.Inherited? <==> key !in record && key in ObjectPrototypeKeys
    ensures r.Inherited? ==> r.key == key
  {
    if key in record then Own(record[key])
    else if key in ObjectPrototypeKeys then Inherited(key)
    else Missing
  }

  /** The ids with a reply pool. */
  lemma ReplyPoolKeys()
    ensures ReplyPools.Keys == {"executive", "development", "marketing", "finance", "customer"}
  {
  }

  /** Every pool has `PoolSize` replies and none of them is empty. */
  lemma PoolsWellFormed()
    ensures "executive" in ReplyPools
    ensures forall id :: id in ReplyPools ==>
      |ReplyPools[id]| == PoolSize && forall k :: 0 <= k < PoolSize ==> ReplyPools[id][k] != ""
  {
    ReplyPoolKeys();
  }

  /** The display names of the name table. */
  lemma AgentNameKeys()
    ensures AgentNameMap.Keys == {"Executive Meta-Agent", "Development Agent", "Marketing Agent", "Finance Agent", "Customer Relations Agent"}
  {
  }

  /** No pool and no display name is keyed by an inherited property name, and every
      display name maps to an id that has a pool. */
  lemma RecordsAvoidPrototype()
    ensures ReplyPools.Keys !! ObjectPrototypeKeys
    ensures AgentNameMap.Keys !! ObjectPrototypeKeys
    ensures AgentNameMap.Values <= ReplyPools.Keys
  {
    ReplyPoolKeys();
    AgentNameKeys();
    forall k | k in ObjectPrototypeKeys
      ensures k !in ReplyPools && k !in AgentNameMap
    {
    }
    forall n | n in AgentNameMap
      ensures AgentNameMap[n] in ReplyPools
    {
    }
  }

  /** `responses[agentId] || responses['executive']` read as own keys only: the
      agent's pool, or the executive pool for an id without one. */
  function ResponsesFor(agentId: string): (pool: seq<string>)
    ensures |pool| == PoolSize
    ensures forall k :: 0 <= k < PoolSize ==> pool[k] != ""
    ensures agentId !in ReplyPools ==> pool == ExecutivePool
  {
    PoolsWellFormed();
    if agentId in ReplyPools then ReplyPools[agentId] else ReplyPools["executive"]
  }

  /** `pool[Math.floor(Math.random() * pool.length)]` with the random index given as `pick`. */
  function PickReply(agentId: string, pick: nat): (reply: string)
    requires pick < PoolSize
    ensures reply in ResponsesFor(agentId) && reply != ""
    ensures agentId in ReplyPools ==> reply in ReplyPools[agentId]
    ensures agentId !in ReplyPools ==> reply in ExecutivePool
  {
    ResponsesFor(agentId)[pick]
  }

  /** The same pick as the source writes it: a ruled-out prototype member reads as a
      truthy non-array whose `[index]` is `undefined` (`None`). */
  function PickReplyAsWritten(agentId: string, pick: nat): (reply: Option<string>)
    requires pick < PoolSize
    ensures reply.Some? ==> reply.value != ""
    ensures reply.None? <==> agentId !in ReplyPools && agentId in ObjectPrototypeKeys
  {
    match RecordGet(ReplyPools, agentId)
    case Own(pool) => PoolsWellFormed(); Some(pool[pick])
    case Inherited(_) => None
    case Missing => Some(ExecutivePool[pick])
  }

  /** Off the inherited names the written lookup and the own-key lookup agree... */
  lemma PickReplyAgreesOffPrototype(agentId: string, pick: nat)
    requires pick < PoolSize
    requires agentId !in ObjectPrototypeKeys
    ensures PickReplyAsWritten(agentId, pick) == Some(PickReply(agentId, pick))
  {
    RecordsAvoidPrototype();
  }

  /** ...and on every inherited name the written lookup yields no reply at all. */
  lemma PickReplyUndefinedOnPrototype(agentId: string, pick: nat)
    requires pick < PoolSize
    requires agentId in ObjectPrototypeKeys
    ensures PickReplyAsWritten(agentId, pick) == None
  {
    RecordsAvoidPrototype();
  }

  /** The five agents both services report. */
  const ServiceAgents: seq<Agent> := [
    Agent("executive", "Executive Meta-Agent",
      "Coordinates all other agents and handles high-level decision making", Active,
      ["Task prioritization", "Resource allocation", "Decision making", "Agent coordination"], "gpt-4o"),
    Agent("development", "Development Agent",
      "Handles software development tasks and technical implementations", Active,
      ["Code generation", "Code review", "Debugging", "Technical documentation"], "gpt-4o"),
    Agent("marketing", "Marketing Agent",
      "Manages marketing campaigns, content creation, and market analysis", Active,
      ["Content creation", "Campaign planning", "Market research", "Social media management"], "gpt-4o"),
    Agent("finance", "Finance Agent",
      "Handles financial analysis, reporting, and forecasting", Active,
      ["Financial analysis", "Budget planning", "Expense tracking", "Revenue forecasting"], "gpt-4o"),
    Agent("customer", "Customer Relations Agent",
      "Manages customer interactions, support, and relationship building", Active,
      ["Customer support", "Relationship management", "Feedback analysis", "Communication"], "gpt-4o")
  ]

  /** The seeded history both services filter (timestamps of 2025-04-07 in ms). */
  const SeedHistory: seq<Message> := [
    Message(1, AgentSender, Some("executive"), "Good morning! How can I assist you today?", 1744016400000),
    Message(2, User, None, "I need help analyzing our Q1 financial performance.", 1744016475000),
    Message(3, AgentSender, Some("executive"),
      "I'll help you with that. Let me coordinate with the Finance Agent to analyze your Q1 financial data.", 1744016490000),
    Message(4, AgentSender, Some("finance"),
      "I've analyzed your Q1 financial data. Revenue is up 15% compared to last quarter, with a 12% increase in profit margin. Your top performing product line is showing 22% growth. Would you like me to prepare a detailed report?", 1744016565000)
  ]

  /** Five agents, distinct ids, the executive first, every id with its own pool. */
  lemma ServiceAgentsWellFormed()
    ensures |ServiceAgents| == 5
    ensures ServiceAgents[0].id == "executive" && ServiceAgents[0].name == "Executive Meta-Agent"
    ensures forall i, j :: 0 <= i < j < |ServiceAgents| ==> ServiceAgents[i].id != ServiceAgents[j].id
    ensures forall i :: 0 <= i < |ServiceAgents| ==> ServiceAgents[i].id in ReplyPools
  {
  }

  /** History for any agent: the seed's user messages and that agent's, in seed order. */
  function HistoryFor(agentId: string): (r: seq<Message>)
    ensures forall m :: m in r <==> m in SeedHistory && (m.sender == User || m.agent == Some(agentId))
    ensures IsSubsequence(r, SeedHistory)
    ensures agentId != "executive" && agentId != "finance" ==> r == [SeedHistory[1]]
  {
    var r := FilterConversation(SeedHistory, agentId);
    assert agentId != "executive" && agentId != "finance" ==> r == [SeedHistory[1]];
    r
  }
}
