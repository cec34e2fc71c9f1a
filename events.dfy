/** The record every agent hands back to its caller:
    `{response_type, is_task_complete, require_user_input, content}`. */
module Events {
  import opened Wrappers
  import opened Json

  datatype ResponseType = Text | Data

  /** `response_type` is optional: the planner's fallback record has none. */
  datatype Response = Response(
    responseType: Option<ResponseType>,
    isTaskComplete: bool,
    requireUserInput: bool,
    content: Json)

  /** The keys of the dict that `r` stands for. */
  function Keys(r: Response): (ks: set<string>)
    ensures "content" in ks && "is_task_complete" in ks && "require_user_input" in ks
    ensures "response_type" in ks <==> r.responseType.Some?
    ensures |ks| == if r.responseType.Some? then 4 else 3
  {
    var required := {"content", "is_task_complete", "require_user_input"};
    if r.responseType.Some? then required + {"response_type"} else required
  }

  /** An intermediate text event: neither complete nor waiting for the user. */
  function ProgressEvent(text: string): (r: Response)
    ensures !r.isTaskComplete && !r.requireUserInput
    ensures r.responseType == Some(Text) && r.content == JString(text)
  {
    Response(Some(Text), false, false, JString(text))
  }
}
