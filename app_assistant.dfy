/** The AI Assistant screen of the sandbees-app copy: a fixed agent list, a
    conversation whose agent answers are a delayed echo of the user's text, and
    a task list whose creation form requires a title and a description and
    announces each new task in the conversation.
    The component's React state is the class's fields; each event handler is a
    method. A send is split at its `setTimeout`: `SendMessage` runs the handler
    and returns what the timer callback captured, `DeliverReply` runs the callback. */
module AppAssistant {
  import opened Base
  import opened Text
  import opened Chat
  import Catalog

  datatype AppTaskStatus = InProgress | Pending | Completed

  /** A task card; both times are milliseconds since the epoch. */
  datatype AppTask = AppTask(
    id: int,
    title: string,
    description: string,
    status: AppTaskStatus,
    assignedAgent: string,
    priority: Priority,
    createdAt: int,
    estimatedCompletion: int)

  /** What the timer callback of `handleSendMessage` captured: the reply id (the
      conversation length at send time plus two), the agent selected at that time
      and the text that was sent. */
  datatype PendingEcho = PendingEcho(replyId: int, agentId: string, text: string)

  /** `setHours(getHours() + 24)`, read as twenty-four hours of milliseconds. */
  const DayMs: int := 86_400_000

  /** The screen's own agent list: the service catalog with a different
      description and capability list for the executive. */
  const AppAgents: seq<Agent> := [
    Agent("executive", "Executive Meta-Agent",
      "Coordinates all other agents and manages high-level decision making", Active,
      ["Task orchestration", "Decision making", "Resource allocation", "Priority management"], "gpt-4o")
  ] + Catalog.ServiceAgents[1..]

  const InitialTasks: seq<AppTask> := [
    AppTask(1, "Analyze Q1 financial performance",
      "Review revenue, expenses, and profit margins for Q1 2025",
      InProgress, "finance", High, 1744016490000, 1744020000000),
    AppTask(2, "Draft social media content calendar",
      "Create content plan for next month's social media posts",
      AppTaskStatus.Pending, "marketing", Medium, 1743949800000, 1744128000000),
    AppTask(3, "Optimize website performance",
      "Identify and fix performance bottlenecks on the company website",
      AppTaskStatus.Pending, "development", Medium, 1743851700000, 1744218000000)
  ]

  /** On first render the executive is selected and its panel shows its own
      description, capabilities and model. */
  lemma InitialAgentDetails()
    ensures Chat.CurrentAgent(AppAgents, "executive") == AppAgents[0]
    ensures AppAgents[0].name == "Executive Meta-Agent"
    ensures AppAgents[0].description == "Coordinates all other agents and manages high-level decision making"
    ensures "Task orchestration" in AppAgents[0].capabilities && "Decision making" in AppAgents[0].capabilities
    ensures AppAgents[0].model == "gpt-4o"
  {
    assert AppAgents[0].id == "executive";
    assert HasAgent(AppAgents, "executive");
  }

  /** Task ids are 1-based positions, so `tasks.length + 1` is always a fresh id.
      (Each screen keeps its own record type, hence its own copy of this shape.) */
  predicate TaskIdsArePositions(tasks: seq<AppTask>) {
    forall i :: 0 <= i < |tasks| ==> tasks[i].id == i + 1
  }

  /** `aiAgents.find(a => a.id === agentId)?.name`. */
  function AgentName(agentId: string): (name: Option<string>)
    ensures name.Some? <==> HasAgent(AppAgents, agentId)
    ensures name.Some? ==> exists k :: 0 <= k < |AppAgents| && AppAgents[k].id == agentId && AppAgents[k].name == name.value
  {
    match FindAgent(AppAgents, agentId)
    case Some(k) => Some(AppAgents[k].name)
    case None => None
  }

  /** A missing name is interpolated as the text "undefined". */
  function NameOrUndefined(name: Option<string>): string {
    match name
    case Some(n) => n
    case None => "undefined"
  }

  const EchoPrefix := "I'm processing your request: \""

  /** The simulated agent answer: the sent text, quoted. */
  function Echo(text: string): (answer: string)
    ensures StartsWith(answer, EchoPrefix)
    ensures |answer| == |EchoPrefix| + |text| + 1 && answer[|answer| - 1] == '"'
  {
    EchoPrefix + text + "\""
  }

  /** The answer contains the sent text, right after the fixed prefix. */
  lemma EchoQuotesRequest(text: string)
    ensures OccursAt(Echo(text), text, |EchoPrefix|)
    ensures Includes(Echo(text), text)
  {
    var e := Echo(text);
    assert e[|EchoPrefix|..|EchoPrefix| + |text|] == text;
    assert OccursAt(e, text, |EchoPrefix|);
    IncludesIffOccurs(e, text);
  }

  /** Different texts get different answers: the sent text can be read back. */
  lemma EchoInjective(a: string, b: string)
    requires Echo(a) == Echo(b)
    ensures a == b
  {
    assert |a| == |b|;
    assert Echo(a)[|EchoPrefix|..|EchoPrefix| + |a|] == a;
    assert Echo(b)[|EchoPrefix|..|EchoPrefix| + |b|] == b;
  }

  /** The executive's note about a newly created task. */
  function TaskNote(title: string, agentId: string): (note: string)
    ensures StartsWith(note, "New task created: \"" + title + "\". I've assigned it to the ")
    ensures note[|note| - 1] == '.'
  {
    "New task created: \"" + title + "\". I've assigned it to the " + NameOrUndefined(AgentName(agentId)) + "."
  }

  /** Every agent id offered by the form's radio buttons yields a note that names
      that agent; any other id yields the text "undefined". */
  lemma TaskNoteNamesAgent(title: string, k: nat)
    requires k < |AppAgents|
    ensures TaskNote(title, AppAgents[k].id)
         == "New task created: \"" + title + "\". I've assigned it to the " + AppAgents[k].name + "."
  {
    Catalog.ServiceAgentsWellFormed();
    assert forall i, j :: 0 <= i < j < |AppAgents| ==> AppAgents[i].id != AppAgents[j].id;
    var name := AgentName(AppAgents[k].id);
    assert HasAgent(AppAgents, AppAgents[k].id);
  }

  lemma TaskNoteForUnknownAgent(title: string, agentId: string)
    requires !HasAgent(AppAgents, agentId)
    ensures TaskNote(title, agentId) == "New task created: \"" + title + "\". I've assigned it to the undefined."
  {
  }

  class Assistant {
    var selectedAgent: string
    var conversation: seq<Message>
    var newMessage: string
    var tasks: seq<AppTask>
    var showNewTaskForm: bool
    var newTask: TaskDraft

    constructor()
      ensures selectedAgent == "executive" && conversation == Catalog.SeedHistory
      ensures IdsArePositions(conversation)
      ensures newMessage == "" && tasks == InitialTasks && !showNewTaskForm && newTask == EmptyDraft
      ensures TaskIdsArePositions(tasks)
    {
      selectedAgent := "executive";
      conversation := Catalog.SeedHistory;
      newMessage := "";
      tasks := InitialTasks;
      showNewTaskForm := false;
      newTask := EmptyDraft;
    }

    /** `currentAgent`. */
    function CurrentAgent(): Agent
      reads this
    {
      Chat.CurrentAgent(AppAgents, selectedAgent)
    }

    /** `filteredConversation`. */
    function FilteredConversation(): seq<Message>
      reads this
    {
      FilterConversation(conversation, selectedAgent)
    }

    /** Clicking an agent. */
    method SelectAgent(id: string)
      modifies this`selectedAgent
      ensures selectedAgent == id
    {
      selectedAgent := id;
    }

    /** The header button: "New Task" opens the form, "Cancel" closes it. */
    method ToggleNewTaskForm()
      modifies this`showNewTaskForm
      ensures showNewTaskForm == !old(showNewTaskForm)
    {
      showNewTaskForm := !showNewTaskForm;
    }

    /** The form's "Cancel" button. */
    method CancelNewTaskForm()
      modifies this`showNewTaskForm
      ensures !showNewTaskForm
    {
      showNewTaskForm := false;
    }

    /** `handleSendMessage`: a blank draft changes nothing; otherwise the user
        message (untrimmed) is appended with the next position as id, the input is
        cleared and the timer callback is returned with what it captured. */
    method SendMessage(now: int) returns (pending: Option<PendingEcho>)
      modifies this`conversation, this`newMessage
      ensures conversation == PostUserMessage(old(conversation), old(newMessage), now)
      ensures IsBlank(old(newMessage)) ==> pending == None && newMessage == old(newMessage)
      ensures !IsBlank(old(newMessage)) ==>
        newMessage == "" && pending == Some(PendingEcho(|old(conversation)| + 2, selectedAgent, old(newMessage)))
    {
      var text := newMessage;
      if IsBlank(text) {
        return None;
      }
      pending := Some(PendingEcho(|conversation| + 2, selectedAgent, text));
      conversation := PostUserMessage(conversation, text, now);
      newMessage := "";
    }

    /** The timer callback: the echo is appended to the conversation as it is
        then, attributed to the agent selected at send time, and shown in that
        agent's view. */
    method DeliverReply(p: PendingEcho, now: int)
      modifies this`conversation
      ensures conversation == old(conversation) + [Message(p.replyId, AgentSender, Some(p.agentId), Echo(p.text), now)]
      ensures FilterConversation(conversation, p.agentId)
           == FilterConversation(old(conversation), p.agentId) + [conversation[|conversation| - 1]]
      ensures IdsArePositions(old(conversation)) && p.replyId == |old(conversation)| + 1 ==>
        IdsArePositions(conversation)
    {
      var agentMessage := Message(p.replyId, AgentSender, Some(p.agentId), Echo(p.text), now);
      AppendOne(conversation, agentMessage, p.agentId);
      conversation := conversation + [agentMessage];
    }

    /** `handleNewTaskSubmit`: nothing happens unless the title and the description
        are non-empty; otherwise the task is appended with id one past the list
        length, status 'pending' and completion a day after `now`, the draft is
        reset, the form closes and the executive announces the task in the
        conversation. */
    method SubmitNewTask(now: int)
      modifies this`tasks, this`newTask, this`showNewTaskForm, this`conversation
      ensures old(newTask).title == "" || old(newTask).description == "" ==>
        tasks == old(tasks) && newTask == old(newTask) &&
        showNewTaskForm == old(showNewTaskForm) && conversation == old(conversation)
      ensures old(newTask).title != "" && old(newTask).description != "" ==>
        && tasks == old(tasks) + [AppTask(|old(tasks)| + 1, old(newTask).title, old(newTask).description,
                                          AppTaskStatus.Pending, old(newTask).assignedAgent, old(newTask).priority,
                                          now, now + DayMs)]
        && newTask == EmptyDraft && !showNewTaskForm
        && conversation == old(conversation) +
             [Message(|old(conversation)| + 1, AgentSender, Some("executive"),
                      TaskNote(old(newTask).title, old(newTask).assignedAgent), now)]
      ensures IdsArePositions(old(conversation)) ==> IdsArePositions(conversation)
      ensures TaskIdsArePositions(old(tasks)) ==> TaskIdsArePositions(tasks)
    {
      if newTask.title != "" && newTask.description != "" {
        var item := AppTask(|tasks| + 1, newTask.title, newTask.description, AppTaskStatus.Pending,
                            newTask.assignedAgent, newTask.priority, now, now + DayMs);
        var note := Message(|conversation| + 1, AgentSender, Some("executive"),
                            TaskNote(newTask.title, newTask.assignedAgent), now);
        AppendOne(conversation, note, "executive");
        tasks := tasks + [item];
        newTask := EmptyDraft;
        showNewTaskForm := false;
        conversation := conversation + [note];
      }
    }
  }
}
