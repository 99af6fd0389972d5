/** The entities both AI Assistant screens and both AI integration services
    share: agents, conversation messages, the request/response pair of one
    dispatch, the lookup of the selected agent and the per-agent view of a
    conversation. */
module Chat {
  import opened Base
  import opened Text

  datatype AgentStatus = Active | Inactive

  datatype Agent = Agent(
    id: string,
    name: string,
    description: string,
    status: AgentStatus,
    capabilities: seq<string>,
    model: string)

  /** A message's `type`: 'user' or 'agent'. */
  datatype Sender = User | AgentSender

  /** One conversation entry. User messages carry no `agent` field; a
      timestamp is milliseconds since the epoch. */
  datatype Message = Message(id: int, sender: Sender, agent: Option<string>, text: string, timestamp: int)

  datatype ResponseStatus = Success | Error | Pending

  /** The request shape of a dispatch; the optional `context` is always empty or absent. */
  datatype AgentRequest = AgentRequest(agentId: string, message: string, userId: string)

  datatype AgentResponse = AgentResponse(agentId: string, message: string, timestamp: int, status: ResponseStatus)

  /** The `newTask` form state of both screens, and the state it is reset to. */
  datatype TaskDraft = TaskDraft(title: string, description: string, assignedAgent: string, priority: Priority)

  const EmptyDraft := TaskDraft("", "", "executive", Medium)

  predicate HasAgent(agents: seq<Agent>, id: string) {
    exists i :: 0 <= i < |agents| && agents[i].id == id
  }

  /** `agents.findIndex(a => a.id === id)`, as an option. */
  function FindAgent(agents: seq<Agent>, id: string): (r: Option<nat>)
    ensures r.Some? ==> r.value < |agents| && agents[r.value].id == id
    ensures r.Some? ==> forall j :: 0 <= j < r.value ==> agents[j].id != id
    ensures r.None? <==> !HasAgent(agents, id)
  {
    if agents == [] then None
    else if agents[0].id == id then Some(0)
    else match FindAgent(agents[1..], id)
      case None => None
      case Some(k) => Some(k + 1)
  }

  /** `agents.find(agent => agent.id === id) || agents[0]`: the first agent with
      that id, or the first agent of the list when none has it. */
  function CurrentAgent(agents: seq<Agent>, id: string): (a: Agent)
    requires |agents| > 0
    ensures a in agents
    ensures HasAgent(agents, id) ==>
      exists k :: 0 <= k < |agents| && agents[k] == a && a.id == id &&
        forall j :: 0 <= j < k ==> agents[j].id != id
    ensures !HasAgent(agents, id) ==> a == agents[0]
  {
    match FindAgent(agents, id)
    case Some(k) => agents[k]
    case None => agents[0]
  }

  /** Whether a message belongs in the view of `agentId`: `msg.type === 'user' || msg.agent === agentId`. */
  predicate ShownFor(m: Message, agentId: string) {
    m.sender == User || m.agent == Some(agentId)
  }

  function ShownBy(agentId: string): Message -> bool {
    m => ShownFor(m, agentId)
  }

  /** The conversation as the view of `agentId` shows it: every user message and
      the messages of that agent, no others, in their stored order. */
  function FilterConversation(conversation: seq<Message>, agentId: string): (r: seq<Message>)
    ensures forall m :: m in r <==> m in conversation && (m.sender == User || m.agent == Some(agentId))
    ensures IsSubsequence(r, conversation)
    ensures |r| == Count(ShownBy(agentId), conversation)
  {
    Filter(ShownBy(agentId), conversation)
  }

  /** Appending messages to the store appends their visible part to the view. */
  lemma FilterConversationAppend(conversation: seq<Message>, added: seq<Message>, agentId: string)
    ensures FilterConversation(conversation + added, agentId)
         == FilterConversation(conversation, agentId) + FilterConversation(added, agentId)
  {
    FilterAppend(ShownBy(agentId), conversation, added);
  }

  /** Appending one message: it joins the end of every view that shows it, and
      taking the next position as its id keeps ids equal to positions. */
  lemma AppendOne(conversation: seq<Message>, m: Message, agentId: string)
    ensures ShownFor(m, agentId) ==>
      FilterConversation(conversation + [m], agentId) == FilterConversation(conversation, agentId) + [m]
    ensures !ShownFor(m, agentId) ==>
      FilterConversation(conversation + [m], agentId) == FilterConversation(conversation, agentId)
    ensures IdsArePositions(conversation) && m.id == |conversation| + 1 ==> IdsArePositions(conversation + [m])
  {
    FilterConversationAppend(conversation, [m], agentId);
    assert Filter(ShownBy(agentId), [m]) == (if ShownFor(m, agentId) then [m] else []) + Filter(ShownBy(agentId), []);
  }

  /** The store after the user sends `text` at `now`: a blank text (`!text.trim()`)
      leaves it as it is; any other text, untrimmed, is appended as a user message
      under the next position, and joins the end of every agent's view. */
  function PostUserMessage(conversation: seq<Message>, text: string, now: int): (r: seq<Message>)
    ensures IsBlank(text) ==> r == conversation
    ensures !IsBlank(text) ==> r == conversation + [Message(|conversation| + 1, User, None, text, now)]
    ensures !IsBlank(text) ==>
      forall agentId :: FilterConversation(r, agentId) == FilterConversation(conversation, agentId) + [r[|r| - 1]]
    ensures IdsArePositions(conversation) ==> IdsArePositions(r)
  {
    if IsBlank(text) then conversation
    else
      var m := Message(|conversation| + 1, User, None, text, now);
      assert forall agentId :: FilterConversation(conversation + [m], agentId)
                            == FilterConversation(conversation, agentId) + [m] by {
        forall agentId
          ensures FilterConversation(conversation + [m], agentId) == FilterConversation(conversation, agentId) + [m]
        {
          AppendOne(conversation, m, agentId);
        }
      }
      AppendOne(conversation, m, "");
      conversation + [m]
  }

  /** Every message's id is its 1-based position, as in the seeded conversations,
      so that ids are distinct and increase along the list. */
  predicate IdsArePositions(conversation: seq<Message>) {
    forall i :: 0 <= i < |conversation| ==> conversation[i].id == i + 1
  }
}
