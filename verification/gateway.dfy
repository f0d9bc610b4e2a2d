/** The pure rules of the Cursor API gateway (cursor/client.py): how a raw
    status string becomes a `RunStatus`, how the assistant's conversation
    entries become `output`, which error field wins, how `create_task` builds
    its prompt and picks an id, and how failed calls are classified. */
module Gateway {
  import opened Schemas
  import opened Text

  const AssistantKind: string := "assistant_message"
  const OutputSeparator: string := "\n\n"
  /** Read when the agent object has no "status" key. */
  const MissingStatus: string := "unknown"
  /** Used when the create reply carries neither "id" nor "agentId". */
  const UnknownId: string := "unknown"
  const TitleLength: nat := 50

  /** The four places the client looks for an agent's error, in order:
      "error", "errorMessage", "error_message", and "error" inside a "data"
      object (None when "data" is not an object). */
  datatype ErrorFields = ErrorFields(error: Option<string>, errorMessage: Option<string>, errorSnake: Option<string>, nested: Option<string>)

  /** The agent object of GET /agents/{id}: its "status", "summary" and error fields. */
  datatype AgentRecord = AgentRecord(status: Option<string>, summary: Option<string>, errors: ErrorFields)

  /** The reply of POST /agents: its "id" and "agentId" keys. */
  datatype CreatedRecord = CreatedRecord(id: Option<string>, agentId: Option<string>)

  // ---------------------------------------------------------------- status

  /** Maps the remote's status word, in any letter case, to a `RunStatus`;
      any word it does not know counts as still running. */
  function MapStatus(raw: string): (s: RunStatus)
    ensures s == Completed <==> Upper(raw) == "FINISHED"
    ensures s == Failed <==> Upper(raw) in {"FAILED", "ERROR", "FAILURE"}
    ensures s == Expired <==> Upper(raw) == "EXPIRED"
    ensures s == Creating <==> Upper(raw) == "CREATING"
    ensures s == Running <==> Upper(raw) !in {"FINISHED", "FAILED", "ERROR", "FAILURE", "EXPIRED", "CREATING"}
  {
    var word := Upper(raw);
    if word == "FINISHED" then Completed
    else if word in ["FAILED", "ERROR", "FAILURE"] then Failed
    else if word == "EXPIRED" then Expired
    else if word == "CREATING" then Creating
    else if word == "RUNNING" then Running
    else Running
  }

  /** The mapping does not depend on letter case. */
  lemma MapStatusIgnoresCase(raw: string)
    ensures MapStatus(Lower(raw)) == MapStatus(raw)
    ensures MapStatus(Upper(raw)) == MapStatus(raw)
  {
    UpperOfLower(raw);
    UpperIdempotent(raw);
  }

  // ---------------------------------------------------------------- output

  predicate IsAssistant(m: Message) {
    m.kind == Some(AssistantKind)
  }

  /** The texts of the assistant entries of a conversation, in order. */
  function AssistantTexts(msgs: seq<Message>): (r: seq<string>)
    ensures |r| <= |msgs|
    ensures r == [] <==> forall i :: 0 <= i < |msgs| ==> !IsAssistant(msgs[i])
  {
    if |msgs| == 0 then []
    else (if IsAssistant(msgs[0]) then [msgs[0].text] else []) + AssistantTexts(msgs[1..])
  }

  /** Only assistant entries contribute, each in its place: a new entry adds
      its text at the end exactly when it is an assistant entry. */
  lemma {:induction false} AssistantTextsAppend(msgs: seq<Message>, m: Message)
    ensures AssistantTexts(msgs + [m]) == AssistantTexts(msgs) + (if IsAssistant(m) then [m.text] else [])
  {
    if |msgs| > 0 {
      assert (msgs + [m])[1..] == msgs[1..] + [m];
      AssistantTextsAppend(msgs[1..], m);
    } else {
      assert msgs + [m] == [m];
    }
  }

  /** The `output` of a COMPLETED agent: nothing without assistant entries,
      the single entry unchanged, or all entries joined by a blank line. */
  function JoinOutput(texts: seq<string>): (r: Option<string>)
    ensures r.None? <==> texts == []
    ensures r.Some? ==> r.value == Join(OutputSeparator, texts)
  {
    if |texts| == 0 then None
    else if |texts| == 1 then Some(texts[0])
    else Some(Join(OutputSeparator, texts))
  }

  /** The `output` the status call reports: only a COMPLETED agent has one,
      read from its conversation, or from its "summary" when the
      conversation cannot be fetched. */
  function OutputOf(status: RunStatus, conversation: Option<seq<Message>>, summary: Option<string>): Option<string>
  {
    if status != Completed then None
    else if conversation.Some? then JoinOutput(AssistantTexts(conversation.value))
    else summary
  }

  /** The last assistant entry of a fetched conversation, if there is one:
      what the follow-up wait reports as the agent's answer. */
  function LatestAnswer(conversation: Option<seq<Message>>): (r: Option<string>)
    ensures r.Some? <==> conversation.Some? && AssistantTexts(conversation.value) != []
    ensures r.Some? ==> var texts := AssistantTexts(conversation.value); r.value == texts[|texts| - 1]
  {
    if conversation.None? then None
    else
      var texts := AssistantTexts(conversation.value);
      if texts == [] then None else Some(texts[|texts| - 1])
  }

  /** The follow-up answer is the tail of the joined output the status call
      would report for the same conversation: it equals that output when the
      conversation has a single assistant entry, and otherwise the output is
      the earlier entries joined, a blank line, and the answer. */
  lemma {:induction false} LatestAnswerEndsOutput(conversation: Option<seq<Message>>)
    requires LatestAnswer(conversation).Some?
    ensures var out := JoinOutput(AssistantTexts(conversation.value));
      out.Some? && EndsWith(out.value, LatestAnswer(conversation).value)
      && (|AssistantTexts(conversation.value)| == 1 ==> out == LatestAnswer(conversation))
    ensures var texts := AssistantTexts(conversation.value);
      var out := JoinOutput(texts);
      |texts| > 1 ==>
        out.value == Join(OutputSeparator, texts[..|texts| - 1]) + OutputSeparator + LatestAnswer(conversation).value
  {
    var texts := AssistantTexts(conversation.value);
    JoinEndsWithLast(OutputSeparator, texts);
    if |texts| > 1 {
      assert texts == texts[..|texts| - 1] + [texts[|texts| - 1]];
      JoinAppend(OutputSeparator, texts[..|texts| - 1], texts[|texts| - 1]);
    }
  }

  // ---------------------------------------------------------------- error field

  /** Python's `a or b` on optional strings. */
  function Or(a: Option<string>, b: Option<string>): Option<string> {
    if Truthy(a) then a else b
  }

  /** The agent's error: the first non-empty of the four fields, in order;
      when none is, whatever the nested field holds. */
  function ErrorField(f: ErrorFields): (r: Option<string>)
    ensures Truthy(f.error) ==> r == f.error
    ensures !Truthy(f.error) && Truthy(f.errorMessage) ==> r == f.errorMessage
    ensures !Truthy(f.error) && !Truthy(f.errorMessage) && Truthy(f.errorSnake) ==> r == f.errorSnake
    ensures !Truthy(f.error) && !Truthy(f.errorMessage) && !Truthy(f.errorSnake) ==> r == f.nested
    ensures Truthy(r) <==> Truthy(f.error) || Truthy(f.errorMessage) || Truthy(f.errorSnake) || Truthy(f.nested)
  {
    Or(f.error, Or(f.errorMessage, Or(f.errorSnake, f.nested)))
  }

  // ---------------------------------------------------------------- status call

  function StatusText(rec: AgentRecord): string {
    if rec.status.Some? then rec.status.value else MissingStatus
  }

  /** `get_agent_status`: the raw reply of GET /agents/{id} and, when the
      agent is COMPLETED, the reply of GET /agents/{id}/conversation (None when
      that call raised) become a `RunResponse` or an error. */
  function GetAgentStatus(agentId: string, reply: HttpReply<AgentRecord>, conversation: Option<seq<Message>>): (r: Result<RunResponse, ClientError>)
    ensures r.Success? <==> reply.Ok?
    ensures r.Success? ==>
      && r.value.id == agentId
      && r.value.status == MapStatus(StatusText(reply.body))
      && r.value.error == ErrorField(reply.body.errors)
    ensures r.Success? && r.value.status != Completed ==> r.value.output == None
    ensures r.Success? && r.value.status == Completed && conversation.Some? ==>
      r.value.output == JoinOutput(AssistantTexts(conversation.value))
    ensures r.Success? && r.value.status == Completed && conversation.None? ==>
      r.value.output == reply.body.summary
    ensures reply.HttpError? ==> r == Failure(ApiError(if reply.code == 404 then AgentNotFound else StatusFailed, Some(reply.code)))
    ensures reply.NetworkFailure? ==> r == Failure(ApiError(Network, None))
    ensures reply.Malformed? ==> r == Failure(UnexpectedError)
  {
    match reply
    case Ok(rec) =>
      var status := MapStatus(StatusText(rec));
      Success(RunResponse(agentId, status, OutputOf(status, conversation, rec.summary), ErrorField(rec.errors)))
    case HttpError(code, _, _) =>
      Failure(ApiError(if code == 404 then AgentNotFound else StatusFailed, Some(code)))
    case NetworkFailure => Failure(ApiError(Network, None))
    case Malformed => Failure(UnexpectedError)
  }

  // ---------------------------------------------------------------- create_task

  /** The instruction `create_task` puts before the user's text for an action;
      the empty string for an action it does not know. */
  function ActionPrefix(action: string): string {
    if action == "plan" then "Створи план рішення для наступної задачі:"
    else if action == "ask" then "Сформулюй уточнюючі питання для наступної задачі:"
    else if action == "code_generate" then "Створи код для наступної задачі:"
    else ""
  }

  /** The prompt text sent to the remote: the user's text, preceded by the
      action's instruction and a blank line when the action is a known one. */
  function PromptText(text: string, action: Option<string>): (p: string)
    ensures EndsWith(p, text)
    ensures action.Some? && action.value in {"plan", "ask", "code_generate"} ==>
      p == ActionPrefix(action.value) + "\n\n" + text && |p| > |text| + 2
    ensures !(action.Some? && action.value in {"plan", "ask", "code_generate"}) ==> p == text
  {
    if Truthy(action) && ActionPrefix(action.value) != "" then ActionPrefix(action.value) + "\n\n" + text
    else text
  }

  /** The agent id: "id" when non-empty, else "agentId" when non-empty, else
      the placeholder "unknown"; never empty. */
  function TaskId(rec: CreatedRecord): (r: string)
    ensures r != ""
    ensures Truthy(rec.id) ==> r == rec.id.value
    ensures !Truthy(rec.id) && Truthy(rec.agentId) ==> r == rec.agentId.value
    ensures !Truthy(rec.id) && !Truthy(rec.agentId) ==> r == UnknownId
  {
    if Truthy(rec.id) then rec.id.value
    else if Truthy(rec.agentId) then rec.agentId.value
    else UnknownId
  }

  /** How a rejected creation is reported. */
  function CreateErrorReason(code: int, body: string): (r: Reason)
    ensures r == RepositoryAccess <==> code == 400 && Contains(body, "validate access to repository")
    ensures r == EndpointNotFound <==> code == 404
    ensures r == CreateFailed <==> code != 404 && !(code == 400 && Contains(body, "validate access to repository"))
  {
    if code == 400 && Contains(body, "validate access to repository") then RepositoryAccess
    else if code == 404 then EndpointNotFound
    else CreateFailed
  }

  /** The outcome of POST /agents for the user's `text`. */
  function CreateOutcome(text: string, reply: HttpReply<CreatedRecord>): (r: Result<TaskResponse, ClientError>)
    ensures r.Success? <==> reply.Ok?
    ensures r.Success? ==>
      && r.value.id != "" && r.value.id == TaskId(reply.body)
      && r.value.description == text
      && StartsWith(text, r.value.title) && |r.value.title| == (if |text| < TitleLength then |text| else TitleLength)
    ensures reply.HttpError? ==> r == Failure(ApiError(CreateErrorReason(reply.code, reply.text), Some(reply.code)))
    ensures reply.NetworkFailure? ==> r == Failure(ApiError(Network, None))
    ensures reply.Malformed? ==> r == Failure(UnexpectedError)
  {
    match reply
    case Ok(rec) => Success(TaskResponse(TaskId(rec), Prefix(text, TitleLength), text))
    case HttpError(code, body, _) => Failure(ApiError(CreateErrorReason(code, body), Some(code)))
    case NetworkFailure => Failure(ApiError(Network, None))
    case Malformed => Failure(UnexpectedError)
  }

  /** The repository a creation targets: the caller's, when non-empty; else the
      first listed repository's "repository" entry; else the configured
      default (also when listing failed or the entry is missing). */
  function ChooseRepository(repositoryUrl: Option<string>, listing: Result<seq<Repository>, ClientError>, default: string): (r: string)
    ensures Truthy(repositoryUrl) ==> r == repositoryUrl.value
    ensures !Truthy(repositoryUrl) && listing.Success? && |listing.value| > 0 && listing.value[0].repository.Some? ==>
      r == listing.value[0].repository.value
    ensures !Truthy(repositoryUrl) && !(listing.Success? && |listing.value| > 0 && listing.value[0].repository.Some?) ==>
      r == default
  {
    if Truthy(repositoryUrl) then repositoryUrl.value
    else if listing.Success? && |listing.value| > 0 && listing.value[0].repository.Some? then listing.value[0].repository.value
    else default
  }

  // ---------------------------------------------------------------- add_followup

  /** How a 409 reply to a follow-up is read: the agent is gone when the body's
      "error" mentions "deleted" in any case, or when the body cannot be read
      as an object with a string "error"; otherwise the follow-up was refused. */
  function ConflictReason(key: ErrorKey): (r: Reason)
    ensures r == AgentGone || r == FollowupFailed
    ensures r == FollowupFailed <==> key.KeyMissing? || (key.KeyText? && !Contains(Lower(key.text), "deleted"))
  {
    match key
    case KeyMissing => FollowupFailed
    case KeyText(t) => if Contains(Lower(t), "deleted") then AgentGone else FollowupFailed
    case _ => AgentGone
  }

  /** The outcome of POST /agents/{id}/followup; its success body is not read. */
  function FollowupOutcome(reply: HttpReply<()>): (r: Result<(), ClientError>)
    ensures r.Success? <==> reply.Ok? || reply.Malformed?
    ensures reply.HttpError? ==> r.Failure? && r.error.ApiError? && r.error.statusCode == Some(reply.code)
    ensures reply.HttpError? && reply.code == 409 ==> r.error.reason == ConflictReason(reply.errorKey)
    ensures reply.HttpError? && reply.code == 404 ==> r.error.reason == AgentNotFound
    ensures reply.HttpError? && reply.code != 404 && reply.code != 409 ==> r.error.reason == FollowupFailed
    ensures reply.NetworkFailure? ==> r == Failure(ApiError(Network, None))
  {
    match reply
    case Ok(_) => Success(())
    case Malformed => Success(())
    case HttpError(code, _, key) =>
      var reason := if code == 404 then AgentNotFound else if code == 409 then ConflictReason(key) else FollowupFailed;
      Failure(ApiError(reason, Some(code)))
    case NetworkFailure => Failure(ApiError(Network, None))
  }

  /** A 409 whose body says the agent was deleted, in any letter case, is
      reported as the agent being gone. */
  lemma DeletedAgentIsGone(word: string)
    requires Contains(word, "deleted") || Contains(word, "DELETED")
    ensures FollowupOutcome(HttpError(409, "", KeyText(word))) == Failure(ApiError(AgentGone, Some(409)))
  {
    if Contains(word, "deleted") {
      ContainsLower(word, "deleted");
    } else {
      ContainsLower(word, "DELETED");
    }
    assert Lower("deleted") == "deleted";
    assert Lower("DELETED") == "deleted";
  }
}
