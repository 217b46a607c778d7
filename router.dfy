/**
 * The message processor of the assistant: a task list that lives for the
 * whole session, and `processMessage`, which classifies a message by
 * case-insensitive substring tests (first match wins) and either manages the
 * task list or answers with canned text.
 */
module Router {
  import opened Wrappers
  import opened Strings
  import opened Sequences

  /** A task; `createdAt` is the creation instant as the host's clock gives it. */
  datatype Task = Task(id: string, title: string, completed: bool, createdAt: int)

  /**
   * What the host supplies to one call: the id of a task created now
   * (`Date.now().toString()`), the current instant (`new Date()`), and the
   * current time rendered for the user (`toLocaleTimeString()`).
   */
  datatype Environment = Environment(newId: string, now: int, timeText: string)

  /** What a message asks for, in the order the branches are tried. */
  datatype Intent = AddTask | ListTasks | CompleteTask | Hello | HowAreYou | Weather | Time | Name | Help | Fallback
  {
    predicate IsTaskIntent() {
      this == AddTask || this == ListTasks || this == CompleteTask
    }
  }

  // ---------------------------------------------------------------------------
  // Classification

  /** The branch chain of `processMessage`, tested on the lowered message. */
  function Classify(message: string): Intent {
    var low := ToLower(message);
    if Contains(low, "add task") || Contains(low, "create task") then AddTask
    else if Contains(low, "list tasks") || Contains(low, "show tasks") then ListTasks
    else if Contains(low, "complete task") || Contains(low, "mark task done") then CompleteTask
    else if Contains(low, "hello") || Contains(low, "hi") then Hello
    else if Contains(low, "how are you") then HowAreYou
    else if Contains(low, "weather") then Weather
    else if Contains(low, "time") then Time
    else if Contains(low, "name") then Name
    else if Contains(low, "help") then Help
    else Fallback
  }

  /** The phrases that select each intent. */
  function Phrases(i: Intent): seq<string> {
    match i
    case AddTask => ["add task", "create task"]
    case ListTasks => ["list tasks", "show tasks"]
    case CompleteTask => ["complete task", "mark task done"]
    case Hello => ["hello", "hi"]
    case HowAreYou => ["how are you"]
    case Weather => ["weather"]
    case Time => ["time"]
    case Name => ["name"]
    case Help => ["help"]
    case Fallback => []
  }

  /** The order in which intents are tried; `Fallback` is what is left. */
  const Priority: seq<Intent> := [AddTask, ListTasks, CompleteTask, Hello, HowAreYou, Weather, Time, Name, Help]

  /** The lowered message contains one of the phrases of `i`. */
  predicate Mentions(low: string, i: Intent) {
    exists k :: 0 <= k < |Phrases(i)| && Contains(low, Phrases(i)[k])
  }

  /** No intent before position `p` of `Priority` is mentioned. */
  predicate NoneMentionedBefore(low: string, p: int) {
    forall q :: 0 <= q < p && q < |Priority| ==> !Mentions(low, Priority[q])
  }

  /** `Mentions` of each intent, spelled out as the `includes` tests `processMessage` makes. */
  lemma MentionsAsTested(low: string)
    ensures Mentions(low, AddTask) <==> Contains(low, "add task") || Contains(low, "create task")
    ensures Mentions(low, ListTasks) <==> Contains(low, "list tasks") || Contains(low, "show tasks")
    ensures Mentions(low, CompleteTask) <==> Contains(low, "complete task") || Contains(low, "mark task done")
    ensures Mentions(low, Hello) <==> Contains(low, "hello") || Contains(low, "hi")
    ensures Mentions(low, HowAreYou) <==> Contains(low, "how are you")
    ensures Mentions(low, Weather) <==> Contains(low, "weather")
    ensures Mentions(low, Time) <==> Contains(low, "time")
    ensures Mentions(low, Name) <==> Contains(low, "name")
    ensures Mentions(low, Help) <==> Contains(low, "help")
    ensures !Mentions(low, Fallback)
  {
    assert Mentions(low, AddTask) <==> Contains(low, "add task") || Contains(low, "create task") by {
      assert Phrases(AddTask)[0] == "add task" && Phrases(AddTask)[1] == "create task";
    }
    assert Mentions(low, ListTasks) <==> Contains(low, "list tasks") || Contains(low, "show tasks") by {
      assert Phrases(ListTasks)[0] == "list tasks" && Phrases(ListTasks)[1] == "show tasks";
    }
    assert Mentions(low, CompleteTask) <==> Contains(low, "complete task") || Contains(low, "mark task done") by {
      assert Phrases(CompleteTask)[0] == "complete task" && Phrases(CompleteTask)[1] == "mark task done";
    }
    assert Mentions(low, Hello) <==> Contains(low, "hello") || Contains(low, "hi") by {
      assert Phrases(Hello)[0] == "hello" && Phrases(Hello)[1] == "hi";
    }
    assert Mentions(low, HowAreYou) <==> Contains(low, "how are you") by {
      assert Phrases(HowAreYou)[0] == "how are you";
    }
    assert Mentions(low, Weather) <==> Contains(low, "weather") by {
      assert Phrases(Weather)[0] == "weather";
    }
    assert Mentions(low, Time) <==> Contains(low, "time") by {
      assert Phrases(Time)[0] == "time";
    }
    assert Mentions(low, Name) <==> Contains(low, "name") by {
      assert Phrases(Name)[0] == "name";
    }
    assert Mentions(low, Help) <==> Contains(low, "help") by {
      assert Phrases(Help)[0] == "help";
    }
  }

  /**
   * Classification is first-match-wins over `Priority`: the chosen intent is
   * mentioned and none tried before it is; `Fallback` exactly when no intent is
   * mentioned.
   */
  lemma ClassifyIsFirstMention(message: string)
    ensures var low, r := ToLower(message), Classify(message);
      (r == Fallback <==> NoneMentionedBefore(low, |Priority|))
      && (r != Fallback ==> exists p :: 0 <= p < |Priority| && Priority[p] == r && Mentions(low, r) && NoneMentionedBefore(low, p))
  {
    var low, r := ToLower(message), Classify(message);
    MentionsAsTested(low);
    var p := PriorityIndex(r);
    forall q | 0 <= q < p && q < |Priority|
      ensures !Mentions(low, Priority[q])
    {
    }
  }

  /** Where `i` stands in `Priority`; `Fallback` comes after all of it. */
  function PriorityIndex(i: Intent): (p: nat)
    ensures p <= |Priority| && (p == |Priority| <==> i == Fallback)
    ensures p < |Priority| ==> Priority[p] == i
  {
    match i
    case AddTask => 0 case ListTasks => 1 case CompleteTask => 2 case Hello => 3 case HowAreYou => 4
    case Weather => 5 case Time => 6 case Name => 7 case Help => 8 case Fallback => 9
  }

  // ---------------------------------------------------------------------------
  // Replies

  /** The title an add-task message names: the message without its first "add task"/"create task", trimmed. */
  function AddTitle(message: string): string {
    Trim(StripFirst(message, "add task", "create task"))
  }

  /** What a complete-task message names: the message without its first "complete task"/"mark task done", trimmed. */
  function CompleteIdentifier(message: string): string {
    Trim(StripFirst(message, "complete task", "mark task done"))
  }

  function CreatedReply(title: string): string {
    "\U{2705} Task created: \"" + title + "\""
  }

  const NoTitleReply: string := "Please specify a task title. For example: 'Add task Buy groceries'"

  const NoTasksReply: string := "You don't have any tasks yet. Try adding some with 'Add task [task description]'."

  const ListHeader: string := "\U{1F4CB} Your tasks:\n"

  /** One line of the listing: 1-based position, a check mark or an open circle, the title. */
  function TaskLine(i: nat, t: Task): string {
    NatToString(i + 1) + ". " + (if t.completed then "\U{2713}" else "\U{25CB}") + " " + t.title
  }

  function TaskLines(ts: seq<Task>): (r: seq<string>)
    ensures |r| == |ts|
    ensures forall i :: 0 <= i < |ts| ==> r[i] == TaskLine(i, ts[i])
  {
    seq(|ts|, i requires 0 <= i < |ts| => TaskLine(i, ts[i]))
  }

  /** The listing of a non-empty task list: the header, then one line per task joined by newlines. */
  function ListReply(ts: seq<Task>): string {
    ListHeader + Join(TaskLines(ts), "\n")
  }

  function MarkedReply(title: string): string {
    "\U{2705} Marked task \"" + title + "\" as complete"
  }

  const NotFoundReply: string := "I couldn't find that task. Try 'List tasks' to see all your tasks."

  /** The fixed answers of the conversational branches; only the time answer depends on the host. */
  function CannedReply(i: Intent, timeText: string): string
    requires !i.IsTaskIntent()
  {
    match i
    case Hello => "Hello! How can I assist you today?"
    case HowAreYou => "I am functioning optimally. Thank you for asking."
    case Weather => "I currently don't have access to real-time weather data, but I can help you with many other requests."
    case Time => "The current time is " + timeText + "."
    case Name => "I am JARVIS, your virtual assistant."
    case Help =>
      "I can help you with various tasks. Try these commands:\n"
      + "- \"Add task [description]\" - Create a new task\n"
      + "- \"List tasks\" - Show all your tasks\n"
      + "- \"Complete task [number or name]\" - Mark a task as complete\n"
      + "- Ask me about the time, weather, or just chat with me!"
    case Fallback =>
      "I understand your message. If you'd like to manage tasks, try saying 'Add task', 'List tasks', or 'Complete task'. "
      + "You can also ask for 'help' to see what I can do."
  }

  /** A listing that ends with a task shows it on the last line, numbered after the others. */
  lemma ListingAfterAdd(ts: seq<Task>, t: Task)
    ensures ListReply(ts + [t]) == if ts == [] then ListHeader + TaskLine(0, t) else ListReply(ts) + "\n" + TaskLine(|ts|, t)
  {
    assert TaskLines(ts + [t]) == TaskLines(ts) + [TaskLine(|ts|, t)];
    if ts != [] {
      JoinSnoc(TaskLines(ts), TaskLine(|ts|, t), "\n");
    }
  }

  // ---------------------------------------------------------------------------
  // Choosing the task to complete

  /** The lowered title contains the lowered identifier. */
  predicate TitleMentions(t: Task, ident: string) {
    Contains(ToLower(t.title), ToLower(ident))
  }

  /** `parseInt(ident) - 1` is a valid index into a list of `n` tasks. */
  predicate IsTaskNumber(ident: string, n: nat) {
    ParseInt(ident).Some? && 1 <= ParseInt(ident).value <= n
  }

  /**
   * The index of the task a complete-task message marks: the 1-based number
   * `ident` parses to when it is in range, otherwise the first task whose
   * title mentions `ident`, otherwise none.
   */
  function CompletionTarget(ts: seq<Task>, ident: string): (r: Option<nat>)
    ensures r.Some? ==> r.value < |ts|
    ensures IsTaskNumber(ident, |ts|) ==> r == Some(ParseInt(ident).value - 1)
    ensures !IsTaskNumber(ident, |ts|) && r.Some? ==>
      TitleMentions(ts[r.value], ident) && forall j :: 0 <= j < r.value ==> !TitleMentions(ts[j], ident)
    ensures !IsTaskNumber(ident, |ts|) ==> (r.None? <==> forall j :: 0 <= j < |ts| ==> !TitleMentions(ts[j], ident))
  {
    if IsTaskNumber(ident, |ts|) then Some(ParseInt(ident).value - 1)
    else FindFirst(ts, t => TitleMentions(t, ident))
  }

  /** "complete task 2" completes the second task whatever the titles say (a number wins over a name). */
  lemma CompleteByNumber(ts: seq<Task>, n: nat, rest: string)
    requires 1 <= n <= |ts|
    requires rest == "" || !IsDigit(rest[0])
    ensures CompletionTarget(ts, NatToString(n) + rest) == Some(n - 1)
  {
    ParseIntOfNatToString(n, rest);
  }

  /** A bare "complete task" completes the first task, when there is one: the empty text is in every title. */
  lemma EmptyIdentifierCompletesFirst(ts: seq<Task>)
    requires ts != []
    ensures CompletionTarget(ts, "") == Some(0)
  {
    ParseIntWithoutDigits("");
    ContainsMeansOccurs(ToLower(ts[0].title), ToLower(""));
  }

  // ---------------------------------------------------------------------------
  // The task list

  /**
   * `after` keeps every task of `before` in place, each either as it was or
   * marked completed, and may add tasks at the end.
   */
  ghost predicate Extends(before: seq<Task>, after: seq<Task>) {
    && |before| <= |after|
    && forall i :: 0 <= i < |before| ==> after[i] == before[i] || after[i] == before[i].(completed := true)
  }

  /** The module-level task list and `processMessage`. */
  class MessageProcessor {
    var tasks: seq<Task>

    /** The list starts empty when the module is loaded. */
    constructor ()
      ensures tasks == []
    {
      tasks := [];
    }

    method ProcessMessage(message: string, env: Environment) returns (reply: string)
      modifies this
      // No branch removes, reorders or un-completes a task.
      ensures Extends(old(tasks), tasks)
      ensures Classify(message) == AddTask && AddTitle(message) != "" ==>
        && tasks == old(tasks) + [Task(env.newId, AddTitle(message), false, env.now)]
        && reply == CreatedReply(AddTitle(message))
      ensures Classify(message) == AddTask && AddTitle(message) == "" ==>
        tasks == old(tasks) && reply == NoTitleReply
      ensures Classify(message) == ListTasks ==>
        && tasks == old(tasks)
        && reply == if old(tasks) == [] then NoTasksReply else ListReply(old(tasks))
      ensures Classify(message) == CompleteTask ==>
        match CompletionTarget(old(tasks), CompleteIdentifier(message))
        case Some(i) =>
          && tasks == old(tasks)[i := old(tasks)[i].(completed := true)]
          && reply == MarkedReply(old(tasks)[i].title)
        case None => tasks == old(tasks) && reply == NotFoundReply
      ensures !Classify(message).IsTaskIntent() ==>
        tasks == old(tasks) && reply == CannedReply(Classify(message), env.timeText)
    {
      var intent := Classify(message);
      match intent {
        case AddTask =>
          reply := CreateTask(AddTitle(message), env);
        case ListTasks =>
          reply := RenderTasks();
        case CompleteTask =>
          reply := MarkComplete(CompleteIdentifier(message));
        case _ =>
          reply := CannedReply(intent, env.timeText);
      }
    }

    /** The add-task branch: a non-empty title becomes a new, uncompleted task at the end. */
    method CreateTask(title: string, env: Environment) returns (reply: string)
      modifies this
      ensures Extends(old(tasks), tasks)
      ensures title != "" ==>
        tasks == old(tasks) + [Task(env.newId, title, false, env.now)] && reply == CreatedReply(title)
      ensures title == "" ==> tasks == old(tasks) && reply == NoTitleReply
    {
      if title != "" {
        tasks := tasks + [Task(env.newId, title, false, env.now)];
        reply := CreatedReply(title);
      } else {
        reply := NoTitleReply;
      }
    }

    /** The list-tasks branch; it reads the list and changes nothing. */
    method RenderTasks() returns (reply: string)
      ensures reply == if tasks == [] then NoTasksReply else ListReply(tasks)
    {
      if |tasks| == 0 {
        reply := NoTasksReply;
      } else {
        reply := ListReply(tasks);
      }
    }

    /** The complete-task branch: the chosen task, if any, is marked completed; nothing else changes. */
    method MarkComplete(ident: string) returns (reply: string)
      modifies this
      ensures Extends(old(tasks), tasks)
      ensures match CompletionTarget(old(tasks), ident)
        case Some(i) =>
          && tasks == old(tasks)[i := old(tasks)[i].(completed := true)]
          && reply == MarkedReply(old(tasks)[i].title)
        case None => tasks == old(tasks) && reply == NotFoundReply
    {
      var target := CompletionTarget(tasks, ident);
      match target {
        case Some(i) =>
          var t := tasks[i];
          tasks := tasks[i := t.(completed := true)];
          reply := MarkedReply(t.title);
        case None =>
          reply := NotFoundReply;
      }
    }
  }

  /** Tasks only accumulate: a run of messages keeps every task that ever existed, in place. */
  lemma ExtendsTransitive(a: seq<Task>, b: seq<Task>, c: seq<Task>)
    requires Extends(a, b) && Extends(b, c)
    ensures Extends(a, c)
  {
  }
}
