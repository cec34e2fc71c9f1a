/** The planner agent's response handling: the structured planner result it
    reads back from the language model and the records it streams to its caller. */
module Planner {
  import opened Wrappers
  import opened Json
  import opened Events

  /** The planner state, a string enum in the source. */
  datatype Status = InputRequired | Completed | Error

  function StatusValue(s: Status): (v: string)
    ensures v in {"input_required", "completed", "error"}
  {
    match s
    case InputRequired => "input_required"
    case Completed => "completed"
    case Error => "error"
  }

  /** `Status(v)`: the member whose value is `v`, if there is one. */
  function StatusOf(v: string): (r: Option<Status>)
    ensures r.Some? ==> StatusValue(r.value) == v
  {
    if v == "input_required" then Some(InputRequired)
    else if v == "completed" then Some(Completed)
    else if v == "error" then Some(Error)
    else None
  }

  lemma StatusRoundTrip(s: Status)
    ensures StatusOf(StatusValue(s)) == Some(s)
  {
  }

  datatype Task = Task(title: string, done: bool)

  /** `Task(title=..., done=...)` with `done` optionally omitted. */
  function NewTask(title: string, done: Option<bool>): (t: Task)
    ensures t.title == title
    ensures done.None? ==> !t.done
    ensures done.Some? ==> t.done == done.value
  {
    Task(title, done.GetOr(false))
  }

  datatype ResponseFormat = ResponseFormat(
    status: Status,
    question: Option<string>,
    content: Option<seq<Task>>)

  /** `ResponseFormat(...)`: an outer `None` is a field left out of the call,
      which then takes its declared default; `Some(None)` is an explicit `None`. */
  function NewResponseFormat(
    status: Option<Status>,
    question: Option<Option<string>>,
    content: Option<Option<seq<Task>>>): (rf: ResponseFormat)
    ensures status.None? ==> rf.status == InputRequired
    ensures question.None? ==> rf.question.None?
    ensures content.None? ==> rf.content.None?
    ensures status.Some? ==> rf.status == status.value
    ensures question.Some? ==> rf.question == question.value
    ensures content.Some? ==> rf.content == content.value
  {
    ResponseFormat(status.GetOr(InputRequired), question.GetOr(None), content.GetOr(None))
  }

  /** What `values.get('structured_response')` may give back: nothing, an
      object of some other class, or a ResponseFormat. */
  datatype StructuredResponse = Absent | Foreign | Formatted(rf: ResponseFormat)

  const UnableToProcess := "We are unable to process your request at the moment. Please try again."

  /** `task.model_dump()`. */
  function TaskJson(t: Task): (j: Json)
    ensures Field(j, "title") == Some(JString(t.title))
    ensures TaskFrom(j) == Some(t)
  {
    JObject([("title", JString(t.title)), ("done", JBool(t.done))])
  }

  function TasksJson(ts: seq<Task>): (r: seq<Json>)
    ensures |r| == |ts|
    ensures forall k :: 0 <= k < |ts| ==> TaskFrom(r[k]) == Some(ts[k])
  {
    if ts == [] then [] else [TaskJson(ts[0])] + TasksJson(ts[1..])
  }

  /** Reads a dumped task back. */
  function TaskFrom(j: Json): Option<Task> {
    match (Field(j, "title"), Field(j, "done"))
    case (Some(JString(title)), Some(JBool(done))) => Some(Task(title, done))
    case _ => None
  }

  function TasksFrom(items: seq<Json>): (r: Option<seq<Task>>)
    ensures r.Some? ==> |r.value| == |items|
  {
    if items == [] then Some([])
    else match (TaskFrom(items[0]), TasksFrom(items[1..]))
      case (Some(t), Some(rest)) => Some([t] + rest)
      case _ => None
  }

  lemma {:induction false} TasksRoundTrip(ts: seq<Task>)
    ensures TasksFrom(TasksJson(ts)) == Some(ts)
  {
    if ts != [] {
      TasksRoundTrip(ts[1..]);
      assert TasksJson(ts)[1..] == TasksJson(ts[1..]);
      assert [ts[0]] + ts[1..] == ts;
    }
  }

  /** The optional question as the record's content (None becomes null). */
  function QuestionJson(q: Option<string>): Json {
    match q
    case Some(s) => JString(s)
    case None => JNull
  }

  /** The optional task list as the record's content (None becomes null). */
  function TaskListJson(c: Option<seq<Task>>): Json {
    match c
    case Some(ts) => JArray(TasksJson(ts))
    case None => JNull
  }

  /** Reads a task-list content back. */
  function TaskListOf(j: Json): Option<Option<seq<Task>>> {
    match j
    case JNull => Some(None)
    case JArray(items) => (match TasksFrom(items) case Some(ts) => Some(Some(ts)) case None => None)
    case _ => None
  }

  /** `get_agent_response`, with the completed branch dumping each task of the
      list (the source calls `model_dump()` on the list itself; see the
      as-written version below). */
  function GetAgentResponse(sr: StructuredResponse): (r: Response)
    ensures r.isTaskComplete <==> sr.Formatted? && sr.rf.status == Completed
    ensures r.requireUserInput <==> !r.isTaskComplete
    ensures !(r.isTaskComplete && r.requireUserInput)
    ensures r.responseType.None? <==> !sr.Formatted?
    ensures r.responseType == Some(Data) <==> r.isTaskComplete
    ensures r.responseType == Some(Text) <==> sr.Formatted? && sr.rf.status in {InputRequired, Error}
    ensures sr.Formatted? && sr.rf.status != Completed ==> r.content == QuestionJson(sr.rf.question)
    ensures sr.Formatted? && sr.rf.status == Completed ==> TaskListOf(r.content) == Some(sr.rf.content)
    ensures !sr.Formatted? ==> r.content == JString(UnableToProcess)
  {
    match sr
    case Formatted(rf) =>
      (match rf.status
       case InputRequired => Response(Some(Text), false, true, QuestionJson(rf.question))
       case Error => Response(Some(Text), false, true, QuestionJson(rf.question))
       case Completed =>
         if rf.content.Some? then
           TasksRoundTrip(rf.content.value);
           Response(Some(Data), true, false, TaskListJson(rf.content))
         else
           Response(Some(Data), true, false, TaskListJson(rf.content)))
    case _ =>
      Response(None, false, true, JString(UnableToProcess))
  }

  /** The `error` status is answered exactly like `input_required`. */
  lemma ErrorAnsweredAsInputRequired(question: Option<string>, content: Option<seq<Task>>)
    ensures GetAgentResponse(Formatted(ResponseFormat(Error, question, content)))
         == GetAgentResponse(Formatted(ResponseFormat(InputRequired, question, content)))
  {
  }

  /** The Python exception the completed branch raises as written. */
  datatype PyError = AttributeError(message: string)

  /** `get_agent_response` as written: `structured_response.content` is a
      Python list (or None), which has no `model_dump` method, so the
      completed branch raises instead of returning. */
  function GetAgentResponseAsWritten(sr: StructuredResponse): (r: Result<Response, PyError>)
    ensures r.Failure? <==> sr.Formatted? && sr.rf.status == Completed
    ensures r.Success? ==> r.value == GetAgentResponse(sr)
  {
    match sr
    case Formatted(rf) =>
      (match rf.status
       case Completed =>
         if rf.content.Some? then Failure(AttributeError("'list' object has no attribute 'model_dump'"))
         else Failure(AttributeError("'NoneType' object has no attribute 'model_dump'"))
       case _ => Success(GetAgentResponse(sr)))
    case _ => Success(GetAgentResponse(sr))
  }

  /** A planner that finished its plan never gets its task list to the caller as written. */
  lemma CompletedPlanRaisesAsWritten()
    ensures GetAgentResponseAsWritten(Formatted(ResponseFormat(Completed, None, Some([Task("Book flight", false)]))))
         == Failure(AttributeError("'list' object has no attribute 'model_dump'"))
    ensures GetAgentResponse(Formatted(ResponseFormat(Completed, None, Some([Task("Book flight", false)]))))
         == Response(Some(Data), true, false, JArray([JObject([("title", JString("Book flight")), ("done", JBool(false))])]))
  {
  }

  datatype Role = Human | AI | System | Tool
  datatype Message = Message(role: Role, content: string)

  /** Every state snapshot the graph streams holds at least the user's message. */
  ghost predicate Snapshots(items: seq<seq<Message>>) {
    forall i :: 0 <= i < |items| ==> |items[i]| > 0
  }

  /** The contents of the snapshots whose latest message comes from the model. */
  function AIContents(items: seq<seq<Message>>): (r: seq<string>)
    requires Snapshots(items)
    ensures |r| <= |items|
  {
    if items == [] then []
    else
      var m := items[0][|items[0]| - 1];
      (if m.role == AI then [m.content] else []) + AIContents(items[1..])
  }

  /** One snapshot contributes its latest message's content exactly when
      that message comes from the model. */
  lemma AIContentsOne(s: seq<Message>)
    requires |s| > 0
    ensures AIContents([s]) == if s[|s| - 1].role == AI then [s[|s| - 1].content] else []
  {
    assert [s][1..] == [];
  }

  lemma {:induction false} AIContentsAppend(a: seq<seq<Message>>, b: seq<seq<Message>>)
    requires Snapshots(a) && Snapshots(b)
    ensures Snapshots(a + b)
    ensures AIContents(a + b) == AIContents(a) + AIContents(b)
  {
    if a != [] {
      var m := a[0][|a[0]| - 1];
      var head := if m.role == AI then [m.content] else [];
      assert (a + b)[0] == a[0];
      assert (a + b)[1..] == a[1..] + b;
      AIContentsAppend(a[1..], b);
      calc {
        AIContents(a + b);
        head + AIContents(a[1..] + b);
        head + (AIContents(a[1..]) + AIContents(b));
        (head + AIContents(a[1..])) + AIContents(b);
        AIContents(a) + AIContents(b);
      }
    } else {
      assert a + b == b;
    }
  }

  /** The events the loop of `stream` yields: one text event per snapshot
      whose latest message comes from the model, in order. */
  function Progress(items: seq<seq<Message>>): (r: seq<Response>)
    requires Snapshots(items)
    ensures |r| == |AIContents(items)|
    ensures forall k :: 0 <= k < |r| ==> r[k] == ProgressEvent(AIContents(items)[k])
  {
    if items == [] then []
    else
      var m := items[0][|items[0]| - 1];
      (if m.role == AI then [ProgressEvent(m.content)] else []) + Progress(items[1..])
  }

  /** `stream`: the progress events, then the final `get_agent_response` record. */
  function Stream(items: seq<seq<Message>>, sr: StructuredResponse): (r: seq<Response>)
    requires Snapshots(items)
    ensures |r| == |AIContents(items)| + 1
    ensures forall k :: 0 <= k < |r| - 1 ==> r[k] == ProgressEvent(AIContents(items)[k])
    ensures r[|r| - 1] == GetAgentResponse(sr)
  {
    Progress(items) + [GetAgentResponse(sr)]
  }

  /** Only the last record of a stream can finish the task or ask the user for input. */
  lemma StreamFlags(items: seq<seq<Message>>, sr: StructuredResponse, k: nat)
    requires Snapshots(items) && k < |Stream(items, sr)|
    ensures !(Stream(items, sr)[k].isTaskComplete && Stream(items, sr)[k].requireUserInput)
    ensures k < |Stream(items, sr)| - 1 ==> !Stream(items, sr)[k].isTaskComplete && !Stream(items, sr)[k].requireUserInput
  {
  }
}
