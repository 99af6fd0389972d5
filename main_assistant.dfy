/** The AI Assistant screen of src/components: agents loaded from the service,
    a conversation with the selected agent, and a task list with a creation form.
    The component's React state is the class's fields; each event handler is a
    method. A send is split at its `await`: `SendMessage` runs up to the call and
    returns what the continuation captured, `ReceiveReply` runs the continuation. */
module MainAssistant {
  import opened Base
  import opened Text
  import opened Chat
  import Catalog
  import MainService

  datatype TaskStatus = Todo | InProgress | Completed

  datatype AssistantTask = AssistantTask(
    id: int,
    title: string,
    description: string,
    assignedAgent: string,
    status: TaskStatus,
    priority: Priority,
    createdAt: int)

  /** What the code after `await aiService.sendRequest(..)` captured when the send
      began: the reply id (the conversation length at send time plus two), the
      agent selected at that time, and the request it dispatched. */
  datatype PendingReply = PendingReply(replyId: int, agentId: string, request: AgentRequest)

  const ErrorReply := "Sorry, there was an error processing your request. Please try again later."

  const CurrentUserId := "current-user"

  /** The three agents shown before the service answers. */
  const InitialAgents: seq<Agent> := Catalog.ServiceAgents[..3]

  const InitialTasks: seq<AssistantTask> := [
    AssistantTask(1, "Analyze Q1 Financial Performance",
      "Review Q1 financial data and provide insights on performance trends and areas for improvement.",
      "executive", InProgress, High, 1743843600000),
    AssistantTask(2, "Optimize Website Performance",
      "Identify and fix performance bottlenecks in the company website to improve load times and user experience.",
      "development", Todo, Medium, 1743949800000),
    AssistantTask(3, "Draft Social Media Content Calendar",
      "Create a content calendar for social media posts for the next month based on upcoming product launches and industry trends.",
      "marketing", Completed, Medium, 1743592500000)
  ]

  /** The seeded conversation; unlike the service's seed, its fourth message is the executive's. */
  const InitialConversation: seq<Message> := Catalog.SeedHistory[..3] + [
    Message(4, AgentSender, Some("executive"),
      "I've analyzed your Q1 financial data. Revenue is up 15% compared to last quarter, with a 12% increase in profit margin. Your top performing product line is showing 22% growth. Would you like me to prepare a detailed report?", 1744016565000)
  ]

  /** `Math.max(...tasks.map(t => t.id))`: the largest id of a non-empty task list. */
  function MaxTaskId(tasks: seq<AssistantTask>): (m: int)
    requires |tasks| > 0
    ensures exists i :: 0 <= i < |tasks| && tasks[i].id == m
    ensures forall i :: 0 <= i < |tasks| ==> tasks[i].id <= m
  {
    if |tasks| == 1 then tasks[0].id
    else
      var rest := MaxTaskId(tasks[1..]);
      if tasks[0].id >= rest then tasks[0].id else rest
  }

  class Assistant {
    var agents: seq<Agent>
    var currentAgentId: string
    var conversation: seq<Message>
    var newMessage: string
    var tasks: seq<AssistantTask>
    var showNewTaskForm: bool
    var newTask: TaskDraft
    var isLoading: bool

    /** The agent list is never empty (it is replaced only by a non-empty one) and
        neither is the task list (it only grows), so the selected agent and the
        largest task id are always defined. */
    ghost predicate Valid()
      reads this
    {
      |agents| > 0 && |tasks| > 0
    }

    constructor()
      ensures Valid()
      ensures agents == InitialAgents && currentAgentId == "executive"
      ensures conversation == InitialConversation && IdsArePositions(conversation)
      ensures newMessage == "" && tasks == InitialTasks
      ensures !showNewTaskForm && newTask == EmptyDraft && !isLoading
    {
      agents := InitialAgents;
      currentAgentId := "executive";
      conversation := InitialConversation;
      newMessage := "";
      tasks := InitialTasks;
      showNewTaskForm := false;
      newTask := EmptyDraft;
      isLoading := false;
    }

    /** `currentAgent`. */
    function CurrentAgent(): Agent
      reads this
      requires Valid()
    {
      Chat.CurrentAgent(agents, currentAgentId)
    }

    /** `filteredConversation`. */
    function FilteredConversation(): seq<Message>
      reads this
    {
      FilterConversation(conversation, currentAgentId)
    }

    /** The `loadAgents` effect: the loaded list replaces the current one only
        when it is non-empty. */
    method LoadAgents(loaded: seq<Agent>)
      requires Valid()
      modifies this`agents
      ensures Valid()
      ensures agents == if |loaded| > 0 then loaded else old(agents)
    {
      if |loaded| > 0 {
        agents := loaded;
      }
    }

    /** Clicking an agent: only which part of the conversation is shown changes. */
    method SelectAgent(id: string)
      modifies this`currentAgentId
      ensures currentAgentId == id
    {
      currentAgentId := id;
    }

    /** The "New AI Task" button. */
    method OpenNewTaskForm()
      modifies this`showNewTaskForm
      ensures showNewTaskForm
    {
      showNewTaskForm := true;
    }

    /** The form's "Cancel" button. */
    method CancelNewTaskForm()
      modifies this`showNewTaskForm
      ensures !showNewTaskForm
    {
      showNewTaskForm := false;
    }

    /** `handleSendMessage` up to its `await`: a blank draft changes nothing;
        otherwise the user message is appended with the next position as id, the
        input is cleared, loading is set and the dispatched request is returned
        together with the id and agent the reply will use. */
    method SendMessage(now: int) returns (pending: Option<PendingReply>)
      modifies this`conversation, this`newMessage, this`isLoading
      ensures conversation == PostUserMessage(old(conversation), old(newMessage), now)
      ensures IsBlank(old(newMessage)) ==>
        pending == None && newMessage == old(newMessage) && isLoading == old(isLoading)
      ensures !IsBlank(old(newMessage)) ==>
        && newMessage == "" && isLoading
        && pending == Some(PendingReply(|old(conversation)| + 2, currentAgentId,
                                        AgentRequest(currentAgentId, old(newMessage), CurrentUserId)))
    {
      var text := newMessage;
      if IsBlank(text) {
        return None;
      }
      pending := Some(PendingReply(|conversation| + 2, currentAgentId,
                                   AgentRequest(currentAgentId, text, CurrentUserId)));
      conversation := PostUserMessage(conversation, text, now);
      newMessage := "";
      isLoading := true;
    }

    /** `handleSendMessage` after its `await`: the service's answer is appended as
        the agent's message (whatever its status), or, when the call threw
        (`outcome == None`), the error text for the agent selected at send time;
        loading is cleared either way. */
    method ReceiveReply(p: PendingReply, outcome: Option<AgentResponse>, now: int)
      modifies this`conversation, this`isLoading
      ensures outcome.Some? ==>
        conversation == old(conversation) +
          [Message(p.replyId, AgentSender, Some(outcome.value.agentId), outcome.value.message, outcome.value.timestamp)]
      ensures outcome.None? ==>
        conversation == old(conversation) + [Message(p.replyId, AgentSender, Some(p.agentId), ErrorReply, now)]
      ensures outcome.None? || outcome.value.agentId == p.agentId ==>
        FilterConversation(conversation, p.agentId)
        == FilterConversation(old(conversation), p.agentId) + [conversation[|conversation| - 1]]
      ensures !isLoading
      ensures IdsArePositions(old(conversation)) && p.replyId == |old(conversation)| + 1 ==>
        IdsArePositions(conversation)
    {
      var agentMessage := match outcome
        case Some(response) =>
          Message(p.replyId, AgentSender, Some(response.agentId), response.message, response.timestamp)
        case None =>
          Message(p.replyId, AgentSender, Some(p.agentId), ErrorReply, now);
      AppendOne(conversation, agentMessage, p.agentId);
      conversation := conversation + [agentMessage];
      isLoading := false;
    }

    /** `handleNewTaskSubmit`: no check on the draft; the new task takes the next id
        past the largest one, status 'todo' and the draft's fields; the form closes
        and the draft is reset. */
    method SubmitNewTask(now: int)
      requires Valid()
      modifies this`tasks, this`showNewTaskForm, this`newTask
      ensures Valid()
      ensures tasks == old(tasks) + [AssistantTask(MaxTaskId(old(tasks)) + 1, old(newTask).title,
                                                   old(newTask).description, old(newTask).assignedAgent,
                                                   Todo, old(newTask).priority, now)]
      ensures forall i :: 0 <= i < |old(tasks)| ==> old(tasks)[i].id < tasks[|tasks| - 1].id
      ensures !showNewTaskForm && newTask == EmptyDraft
    {
      var task := AssistantTask(MaxTaskId(tasks) + 1, newTask.title, newTask.description,
                                newTask.assignedAgent, Todo, newTask.priority, now);
      tasks := tasks + [task];
      showNewTaskForm := false;
      newTask := EmptyDraft;
    }
  }
}
