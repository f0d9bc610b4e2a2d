/** The records exchanged with the Cursor Cloud Agent API, the client's error
    classes, and the shape of a raw HTTP reply as the client sees it. */
module Schemas {

  datatype Option<+T> = None | Some(value: T)

  datatype Result<+T, +E> = Success(value: T) | Failure(error: E)

  /** Python truthiness of an optional string: absent and empty are false. */
  predicate Truthy(o: Option<string>) {
    o.Some? && o.value != ""
  }

  /** The five statuses the client logic distinguishes. The enumeration in
      cursor/schemas.py lacks CREATING, but the client assigns and tests it. */
  datatype RunStatus = Creating | Running | Completed | Failed | Expired

  /** An agent as the client reports it; `output` and `error` are optional. */
  datatype RunResponse = RunResponse(id: string, status: RunStatus, output: Option<string>, error: Option<string>)

  /** The body of POST /agents: the prompt text and the source repository. */
  datatype CreateTaskRequest = CreateTaskRequest(promptText: string, repository: string)

  /** What `create_task` returns about a freshly created agent. */
  datatype TaskResponse = TaskResponse(id: string, title: string, description: string)

  /** One conversation entry: its `type` field (absent is None) and its `text`
      field (absent reads as the empty string). */
  datatype Message = Message(kind: Option<string>, text: string)

  /** One repository the API key may direct agents at; the `repository` key may
      be missing from the remote's record. */
  datatype Repository = Repository(owner: string, name: string, repository: Option<string>)

  /** Which failure a `CursorAPIError` reports. Each tag stands for one message
      template of the client; the message wording itself is not modelled. */
  datatype Reason =
    | RateLimited          // repository list: rate limit and no cache to fall back on
    | RepositoriesFailed   // repository list: any other HTTP error
    | RepositoryAccess     // create: 400 mentioning repository access
    | EndpointNotFound     // create: 404
    | CreateFailed         // create: any other HTTP error
    | AgentNotFound        // status or follow-up: 404
    | StatusFailed         // status: any other HTTP error
    | AgentFailed(detail: Option<string>)  // agent reported FAILED; None = generic wording
    | AgentExpired         // agent reported EXPIRED
    | AgentGone            // follow-up: 409, agent expired or deleted
    | FollowupFailed       // follow-up: any other rejection
    | Network              // transport failure
    | Unexpected           // any other exception, rewrapped by the task manager

  /** The exceptions the core raises: `CursorAPIError` with its optional
      `status_code`, `CursorTimeoutError`, and any other exception escaping
      from Python code (a body that is not JSON, a missing attribute). */
  datatype ClientError =
    | ApiError(reason: Reason, statusCode: Option<int>)
    | TimeoutError
    | UnexpectedError

  /** The `"error"` key of an error body after `json.loads`. */
  datatype ErrorKey =
    | NotJson             // the body is not JSON
    | NotObject           // JSON, but not an object
    | KeyMissing          // an object without "error"
    | KeyText(text: string)
    | KeyOther            // "error" holds null, a number, a list or an object

  /** One HTTP exchange: a 2xx reply with its decoded body, an error status
      with its body text, a transport failure (`httpx.RequestError`), or a 2xx
      reply whose body cannot be read as the expected JSON object. */
  datatype HttpReply<+T> =
    | Ok(body: T)
    | HttpError(code: int, text: string, errorKey: ErrorKey)
    | NetworkFailure
    | Malformed
}
