# Cursor coding-assistant bot: a Dafny model of its core

This project models the core of a Telegram bot that hands coding tasks to
Cursor Cloud Agents. The bot's commands `/plan`, `/ask` and `/solve`
create a remote agent with an instruction. The bot then polls the agent
until it finishes and sends back its answer, formatted. Follow-up messages
go to the same agent. In group chats, anyone can ask questions, but only
the owner can manage repositories and agents.

The model covers five source files:

- `cursor/client.py`, the API client, in three modules:
  - `Client`: the class with its repository-list cache, plus `create_task`.
  - `Gateway`: the reading of each remote reply (status, conversation,
    creation, follow-up).
  - `Poller`: the polling loop `wait_agent_completion`.
- `cursor/task_manager.py` (`TaskManager`): `run_plan`, `run_ask` and
  `run_solve`, the title extraction and the output formatters.
- `bot/router.py` (`Router`): the access middleware, the owner-only
  commands in groups and the bot-mention test.
- `bot/repository_manager.py` and `bot/agent_manager.py` (`UserStores`):
  the per-user dictionaries of selected repository and last agent. Both
  files have the same shape. `UserStores.UserStore` is that dictionary, and
  each file holds one instance of it.

Two further modules support the others. `Schemas` holds the records of
`cursor/schemas.py` and the client's error classes. `Text` holds the Python
string operations the source relies on (`strip`, `lower`, `split`,
`rsplit`, `in`, `join`, slicing).

How the model represents the world:

- **Clock.** Time is an integer number of seconds, supplied as input.
- **HTTP replies.** A reply is an `HttpReply`: a 2xx reply with its decoded
  body, an error status with its body text and the body's "error" key, a
  transport failure, or a 2xx body that cannot be read.
- **Exceptions.** What the client raises is a `ClientError`:
  - `ApiError` stands for `CursorAPIError`. It carries a `Reason` tag for
    the message template and the optional status code.
  - `TimeoutError` stands for `CursorTimeoutError`.
  - `UnexpectedError` stands for any other exception.
- **The wait.** `wait_agent_completion` is a loop in the source and a
  `while` loop here (`Poller.WaitAgentCompletion`). It is proved equal to
  the step function `Poller.Run`, and the timing properties are proved
  about `Run`.
  - Each loop iteration consumes one `Observation`. It holds what
    `get_agent_status` returns or raises, what a conversation fetch in that
    iteration returns (None when it raises), whether the progress callback
    raises, and how many extra seconds the iteration took.
  - All clock readings within one iteration see the same value.
  - The wait also reports the remote calls and callback invocations it
    made, with their times. This trace is what the spacing properties are
    about.
- **State.** Classes hold what the source changes in place:
  - the client's cache fields (`Client.CursorClient`);
  - the middleware's handler data (`Router.HandlerData`);
  - the per-user dictionaries (`UserStores.UserStore`).

Behaviour worth knowing:

- **Follow-ups.** After a follow-up to an agent that had already completed,
  the wait returns the conversation's latest assistant message as soon as
  one exists. It does not wait for that message to be newer than the
  follow-up, so an answer already there before the follow-up is returned
  at the first check. `Poller.FollowUpReturnsExistingAnswer` states this.
  The source comment at `cursor/client.py:617-618` names the intended test,
  a message beyond those present at the follow-up, and marks returning the
  last message as a stop-gap "for now". The model follows the stop-gap,
  which is what the code does.
- **Mentions.** For a bot with a username, the entity scan of the mention
  test can never change its verdict. A mention entity that covers
  "@username" puts that text in the message, and the substring test
  already finds it (`Router.EntityScanSubsumed`).
- **Schemas.** The status enumeration in `cursor/schemas.py:9-15` has no
  CREATING member, but `get_agent_status` assigns that status and the wait
  loop tests for it. `RunStatus` here has five values, CREATING among them:
  this is a reading of the authors' intent, not of the code as written,
  where each such use raises (see `Gateway.MapStatus` and `Poller.Step`
  under "Left out").
- **Listing errors.** The docstring of `get_available_repositories` says it
  raises only when no cached data is available, but an HTTP error other
  than a rate limit raises even when a cached list exists
  (`Client.OtherErrorIgnoresCache`).

## Model

| member | source | states |
|---|---|---|
| Gateway.MapStatus | cursor/client.py:351-370 | once upper-cased, FINISHED maps to Completed; FAILED, ERROR and FAILURE to Failed; EXPIRED to Expired; CREATING to Creating. RUNNING and every unknown word map to Running. Each case is an if-and-only-if |
| Gateway.MapStatusIgnoresCase | cursor/client.py:351 | the status a word maps to does not depend on its letter case |
| Gateway.AssistantTexts | cursor/client.py:381-386 | at most one text per message; empty exactly when no message is an assistant message |
| Gateway.AssistantTextsAppend | cursor/client.py:382-386 | the filter keeps order: one more message adds its text at the end exactly when it is an assistant message |
| Gateway.JoinOutput | cursor/client.py:387-396 | no output exactly when there are no assistant texts; otherwise the texts joined with a blank line |
| Gateway.LatestAnswer | cursor/client.py:611-619 | there is an answer exactly when the conversation was read and holds an assistant message, and it is the last assistant message |
| Gateway.LatestAnswerEndsOutput | cursor/client.py:387-396 | the latest assistant text ends the joined status output. It is all of it when it is the only one; otherwise the output is the earlier texts joined, a blank line, and the latest |
| Gateway.ErrorField | cursor/client.py:410-415 | the first non-empty of "error", "errorMessage" and "error_message", else the nested data.error; non-empty exactly when one of the four is |
| Gateway.GetAgentStatus | cursor/client.py:337-453 | succeeds exactly on a 2xx reply, with the agent id, the mapped status and the error field. Output exists only for a completed agent: the joined assistant texts, or the summary when the conversation call fails. 404 is AgentNotFound, any other error status StatusFailed, both with the code; a network failure has no code |
| Gateway.PromptText | cursor/client.py:259-269 | a known action puts its instruction and a blank line before the text; no action or an unknown one leaves the text as it is; the prompt always ends with the text |
| Gateway.TaskId | cursor/client.py:289 | "id" when non-empty, else "agentId" when non-empty, else "unknown"; never empty |
| Gateway.CreateErrorReason | cursor/client.py:295-317 | repository-access failure exactly for a 400 whose body mentions validating repository access; endpoint-not-found exactly for 404; the generic failure otherwise |
| Gateway.CreateOutcome | cursor/client.py:277-321 | succeeds exactly on a 2xx reply. The id is the chosen non-empty id, the title the first 50 characters of the text, the description the text. An error status keeps its code; a network failure has none |
| Gateway.ChooseRepository | cursor/client.py:242-256 | the caller's repository when non-empty; else the first listed repository's URL; else the configured default, also when listing failed or the entry is missing |
| Gateway.ConflictReason | cursor/client.py:710-719 | a 409 means the agent is gone unless the body is an object whose "error" is missing, or is a string without "deleted" in any case |
| Gateway.FollowupOutcome | cursor/client.py:696-727 | succeeds exactly on a 2xx reply (its body is not read). 404 is AgentNotFound, 409 is read by ConflictReason, any other status FollowupFailed, all with the code; a network failure has no code |
| Gateway.DeletedAgentIsGone | cursor/client.py:710-715 | a 409 whose "error" says "deleted" in lower or upper case reports the agent gone, with status 409 |
| Client.Fallback | cursor/client.py:129-169 | after a rate limit or network failure: the cached list exactly when the caller allows the cache and there is one, otherwise the error |
| Client.ListRepositories | cursor/client.py:98-169 | GET /repositories is issued exactly when no fresh cached list may be served. Without it, the result is the cache and the cache is kept. The cache either stays as it was or becomes the freshly fetched list, stamped with the current time, and a request answered with a 2xx reply always succeeds and refreshes it |
| Client.FetchRefreshesCache | cursor/client.py:108-119 | a successful fetch returns the list, an empty one when the body lacks the key, and replaces both the cached list and its time stamp with it |
| Client.UnreadableReplyRaises | cursor/client.py:108-156 | a 2xx reply whose body cannot be read, or an error reply whose JSON body is not an object and is not a rate limit, raises an unexpected error even with a cached list; the cache is kept |
| Client.SecondCallWithinWindowIsCached | cursor/client.py:101-105 | a call less than 60 seconds after a fetching call issues no request and returns the same list |
| Client.StaleListOnFailure | cursor/client.py:129-140 | on a rate limit or network failure, a cached list is served whatever its age, and the cache is kept |
| Client.OtherErrorIgnoresCache | cursor/client.py:153-156 | an HTTP error that is not a rate limit raises with its own status code even when a cached list exists; the cache is kept |
| Client.FailureWithoutCache | cursor/client.py:141-169 | without a usable cache, a rate limit is reported with status 429, and a network failure without a status |
| Client.CursorClient.GetAvailableRepositories | cursor/client.py:85-169 | returns, issues the request and leaves the cache exactly as ListRepositories does on the old cache |
| Client.CursorClient.CreateTask | cursor/client.py:225-321 | a caller-given repository leaves the cache alone; otherwise the listing goes through the cache and ChooseRepository picks the repository; the prompt is PromptText; the outcome is CreateOutcome |
| Poller.Step | cursor/client.py:571-680 | an iteration that continues started before the deadline, consumes one observation and advances the clock by the poll interval plus the iteration's delay |
| Poller.WaitAgentCompletion | cursor/client.py:529-680 | the outcome and the calls of the loop are those of Run from the initial state |
| Poller.ElapsedAt | cursor/client.py:571-572 | the j-th iteration starts at least j poll intervals after the start |
| Poller.SettledRun | cursor/client.py:571-680 | once no restart is awaited, the wait ends with the first decisive poll, or a timeout if none comes before the deadline |
| Poller.PlainModeOutcome | cursor/client.py:565-569 | without a preceding follow-up, the wait is settled from the first poll |
| Poller.FollowUpAfterRestart | cursor/client.py:590-595 | after a follow-up, a first poll that sees CREATING or RUNNING ends the wait for the restart; the rest is settled from the second poll |
| Poller.RestartAtAnyPoll | cursor/client.py:590-595 | a poll that sees CREATING or RUNNING while a restart is awaited, at any point of the wait, switches to the normal loop: the rest is settled from the next poll, with a completion answering from the conversation |
| Poller.FollowUpReturnsExistingAnswer | cursor/client.py:596-626 | after a follow-up, a first poll that sees COMPLETED checks the conversation and returns its latest assistant text at once, even one written before the follow-up |
| Poller.NotifyCalls | cursor/client.py:581-586 | the callback is called only when given and at least 10 seconds after the last accepted update; the update time moves only when it does not raise |
| Poller.DecideCalls | cursor/client.py:590-680 | an iteration adds at most one conversation call, and a check while waiting for the restart only when one is due; the check bookkeeping moves as the source's flags do |
| Poller.StepShape | cursor/client.py:571-680 | an iteration past the deadline adds no call; one before it adds exactly one status poll at the current time plus the calls its decision makes |
| Poller.RunReadsConversation | cursor/client.py:640-668 | a success after a restart was awaited or seen has a conversation read as the wait's last call; when that read is a check, the result is the answer built from a conversation entry |
| Poller.FollowUpSuccessReadsConversation | cursor/client.py:590-668 | after a follow-up, every successful result was preceded by reading the conversation |
| Poller.NoRestartAnswers | cursor/client.py:590-631 | while a restart is awaited and no poll ever reports CREATING or RUNNING, a successful wait never returns the polled status: it ends with a conversation check and answers with a conversation entry |
| Poller.FollowUpWithoutRestartAnswers | cursor/client.py:590-631 | after a follow-up to an agent that never visibly restarts, every success is an answer found by a conversation check |
| Poller.DueCheckIsMade | cursor/client.py:599-630 | while a follow-up awaits its restart, a COMPLETED poll before the deadline with a check due reads the conversation. The wait ends exactly when an assistant message exists, answering with the last one; otherwise it goes on with this check as the last one |
| Poller.FailedOrExpiredRaises | cursor/client.py:669-676 | a FAILED status raises with the agent's error when non-empty (the generic wording otherwise); EXPIRED raises its own error; neither has a status code |
| Poller.DeadlineStopsPolling | cursor/client.py:572-576 | once the elapsed time reaches the timeout, the wait raises a timeout without another call |
| Poller.PacedGrown | cursor/client.py:571-680 | extending a paced trace by calls at a time one poll interval later keeps it paced |
| Poller.StepPaced | cursor/client.py:571-680 | one iteration keeps the polls at least a poll interval apart and within the timeout |
| Poller.RunPaced | cursor/client.py:571-680 | so does the rest of the wait from any paced state |
| Poller.WaitIsPaced | cursor/client.py:571-680 | the status polls of a wait are at least a poll interval apart, and all happen before the timeout |
| Poller.ChecksGrown | cursor/client.py:599-605 | adding a conversation check at least 15 seconds after every earlier check keeps checks spaced |
| Poller.StepKeepsChecksSpaced | cursor/client.py:596-630 | one iteration keeps the check bookkeeping true to the trace |
| Poller.RunChecksSpaced | cursor/client.py:596-630 | so does the rest of the wait |
| Poller.WaitChecksSpaced | cursor/client.py:596-630 | conversation checks while waiting for the restart are at least 15 seconds apart |
| Poller.NotificationsGrown | cursor/client.py:581-586 | adding a notification at least 10 seconds after every accepted one keeps notifications spaced |
| Poller.StepKeepsNotificationsSpaced | cursor/client.py:581-586 | one iteration keeps the update bookkeeping true to the trace |
| Poller.RunNotificationsSpaced | cursor/client.py:581-586 | so does the rest of the wait |
| Poller.WaitNotificationsSpaced | cursor/client.py:581-586 | every callback call comes at least 10 seconds after the last accepted one and at least 10 seconds after the start |
| Poller.StepIgnoresCallback | cursor/client.py:581-586 | with the same progress, an iteration with a callback continues or stops as one without, with the same outcome |
| Poller.RunIgnoresCallback | cursor/client.py:581-586 | so does the rest of the wait |
| Poller.CallbackNeverChangesOutcome | cursor/client.py:581-586 | the callback, raising or not, never changes what the wait returns or raises |
| TaskManager.MarkerSurvivesAppend | cursor/task_manager.py:211 | appending text keeps a leading marker |
| TaskManager.MarkerAtHead | cursor/task_manager.py:211 | a text that begins with a visible marker has it after stripping |
| TaskManager.OtherHeadUnmarked | cursor/task_manager.py:233 | a text that begins with another visible character lacks the marker |
| TaskManager.HeaderMarks | cursor/task_manager.py:211-212 | a header beginning with the marker marks whatever follows it |
| TaskManager.FormatPlan | cursor/task_manager.py:200-219 | always ends with the version reminder; the plan header is added exactly when the stripped plan does not start with 📋 |
| TaskManager.FormattedPlanIsMarked | cursor/task_manager.py:210-219 | a formatted plan starts with 📋 once stripped |
| TaskManager.FormatPlanTwice | cursor/task_manager.py:210-219 | formatting again adds no second header, only a second reminder |
| TaskManager.FormatQuestions | cursor/task_manager.py:222-235 | the text is kept at the end; the questions header is added exactly when the stripped text does not start with ❓ |
| TaskManager.FormattedQuestionsAreMarked | cursor/task_manager.py:233-235 | formatted questions start with ❓ once stripped |
| TaskManager.FormatQuestionsIdempotent | cursor/task_manager.py:233-235 | formatting questions twice is formatting them once |
| TaskManager.FormatCode | cursor/task_manager.py:155-159 | the code is kept at the end; the code header is added exactly when the stripped code does not start with 💻 |
| TaskManager.FormattedCodeIsMarked | cursor/task_manager.py:155-159 | formatted code starts with 💻 once stripped |
| TaskManager.ExtractTitle | cursor/task_manager.py:176-197 | the title is never empty |
| TaskManager.StripKeepsSingleLine | cursor/task_manager.py:191-192 | stripping a line adds no line break |
| TaskManager.TitleLineSingle | cursor/task_manager.py:191-192 | the stripped first line of the stripped text has no line break |
| TaskManager.CutKeepsSingleLine | cursor/task_manager.py:194-195 | cutting a line back and appending "..." adds no line break |
| TaskManager.ExtractTitleCases | cursor/task_manager.py:188-197 | without a visible first line (the empty text included) the title is "Untitled Task"; a first line that fits is the title; a longer one is cut back to its last space within the limit, followed by "..." |
| TaskManager.UntitledSingle | cursor/task_manager.py:197 | the placeholder title is one line |
| TaskManager.ExtractTitleSingleLine | cursor/task_manager.py:176-197 | the title is always a single line |
| TaskManager.CutIsBoundedPrefix | cursor/task_manager.py:194-195 | a cut title is at most the limit plus 3 long, ends with "..." and is otherwise a prefix of the line |
| TaskManager.ExtractTitleTruncated | cursor/task_manager.py:194-195 | a first line over the limit gives a title of at most the limit plus 3 characters, ending in "...", otherwise a prefix of that line |
| TaskManager.ActionName | cursor/task_manager.py:48-50 | each operation creates its agent with the action "plan", "ask" or "code_generate" |
| TaskManager.Propagate | cursor/task_manager.py:62-67 | the client's own errors and timeouts pass unchanged; any other exception becomes a client error without a status code |
| TaskManager.Compose | cursor/task_manager.py:46-67 | succeeds exactly when creation and the wait succeed, with the created id and the shaped output; a failure of either is propagated, creation first |
| TaskManager.PlanShape | cursor/task_manager.py:58-61 | the fixed apology exactly when the output is missing or empty; otherwise marked with 📋 and ending with the reminder |
| TaskManager.NoQuestionsUnmarked | cursor/task_manager.py:104-105 | the apology for missing questions does not start with ❓ |
| TaskManager.AskShape | cursor/task_manager.py:104-107 | the fixed apology exactly when the output is missing or empty; otherwise the output, marked with ❓ |
| TaskManager.SolveShape | cursor/task_manager.py:150-167 | always ends with the reminder; marked with 💻 whenever there was output |
| TaskManager.OutcomeCarriesCreatedId | cursor/task_manager.py:48-61 | a successful result carries the id that creation returned |
| TaskManager.RunAction | cursor/task_manager.py:46-67 | sends the operation's prompt to the chosen repository, waits on exactly the created id (no wait when creation failed), and returns Outcome |
| TaskManager.RunPlan | cursor/task_manager.py:23-67 | creates with "plan". With a repository given, it is used and the cache is untouched; otherwise the cache moves as one listing does, and the repository is the one chosen from that listing. Returns Outcome for the plan |
| TaskManager.RunAsk | cursor/task_manager.py:69-113 | creates with "ask". With a repository given, it is used and the cache is untouched; otherwise the cache moves as one listing does, and the repository is the one chosen from that listing. Returns Outcome for the questions |
| TaskManager.RunSolve | cursor/task_manager.py:115-173 | creates with "code_generate". With a repository given, it is used and the cache is untouched; otherwise the cache moves as one listing does, and the repository is the one chosen from that listing. Returns Outcome for the code |
| Router.Admission | bot/router.py:73-112 | admits exactly a group or supergroup event or one from the owner, with is_group_chat true exactly for the group event; a refusal is an alert exactly for a callback |
| Router.HandlerData.constructor | bot/router.py:73-112 | the handler data starts without is_group_chat |
| Router.AccessMiddleware | bot/router.py:73-112 | decides as Admission; an admitted event has is_group_chat written before the handler runs; a refused one leaves the data alone |
| Router.OnlyOwnerOutsideGroups | bot/router.py:82-112 | outside groups (a callback without a message included) exactly the owner gets through; in a group everyone does |
| Router.GroupFlag | bot/router.py:138 | a missing is_group_chat reads as false |
| Router.CommandRuns | bot/router.py:156-209 | a command is refused exactly when it is /repos, /favrepos, /setrepo or /agents in a group chat and the sender is not the owner |
| Router.OwnerOnlyCommands | bot/router.py:73-209 | with the middleware in front, the four repository and agent commands run for the owner only, in any chat; every other command runs for whoever is admitted |
| Router.Slice | bot/router.py:245 | an entity's text is empty when it starts at or past the end of the message or ends no later than it starts; otherwise it is the message from the offset up to the entity's end or the message's end, whichever comes first |
| Router.MentionToken | bot/router.py:246 | "@" followed by the username, and exactly "@None" for a missing one |
| Router.IsBotMentioned | bot/router.py:239-254 | true exactly when some mention entity covers the token exactly, or the bot has a username and the lower-cased text contains "@" and the lower-cased username |
| Router.HandleGroupText | bot/router.py:231-258 | a group text is answered exactly when it does not start with "/" and mentions the bot |
| Router.LowerToken | bot/router.py:253 | lower-casing "@username" keeps the "@" |
| Router.WrittenMentionCounts | bot/router.py:250-254 | "@username" written anywhere, in any ASCII case, mentions a bot with a username |
| Router.EntityTokenInText | bot/router.py:243-247 | a mention entity covering the token puts the token in the text |
| Router.EntityScanSubsumed | bot/router.py:242-254 | for a bot with a username, it is mentioned exactly when the lower-cased text contains the lower-cased "@username" |
| UserStores.Lookup | bot/repository_manager.py:20 | a value exactly for a stored user, and it is the stored one |
| UserStores.UserStore.constructor | bot/agent_manager.py:7 | the store starts empty |
| UserStores.UserStore.Get | bot/repository_manager.py:10-20 | a value exactly for a user with an entry, and it is that entry |
| UserStores.UserStore.Set | bot/repository_manager.py:23-31 | the user's entry becomes the value whatever it was; every other entry is unchanged |
| UserStores.UserStore.Clear | bot/repository_manager.py:34-41 | the user's entry is gone; a user without one changes nothing and is no error; every other entry is unchanged |
| UserStores.Apply | bot/agent_manager.py:23-41 | a set gives the user the value, a clear gives them nothing, and no other user changes |
| UserStores.ApplyAllSnoc | bot/agent_manager.py:23-41 | replaying writes one by one equals replaying all but the last, then the last |
| UserStores.LastWriteWins | bot/agent_manager.py:20-41 | after any sequence of sets and clears, a user's entry is what the last write to that user left, or what it was when none touched them |
| UserStores.OthersNeverInterfere | bot/agent_manager.py:23-41 | writes for other users never change a user's entry |
| UserStores.SetThenSet | bot/repository_manager.py:20-31 | a second set overwrites the first |
| UserStores.SetThenClear | bot/repository_manager.py:20-41 | a clear after a set leaves the user without an entry |

## Left out

- **Telegram UI.** `bot/handlers.py` is not part of this model: reply text, keyboards, photo download and the handlers' error rendering.
- **Transport and diagnostics.**
  - HTTP transport, JSON decoding and authentication headers are not modelled: a reply is given as an `HttpReply`.
  - Logging, the debug-log dedup sets and the status-log counters have no effect on results and are left out.
- **Wording.**
  - The wording of the Ukrainian error messages and of `_format_network_error` is left out. Each error is a `Reason` tag with the optional status code.
  - The text a failed agent's error carries is kept (`AgentFailed`).
- **Other endpoints.**
  - `get_run` and `list_agents` are thin wrappers of remote endpoints and are left out.
  - `get_agent_conversation` is folded into the observation a wait receives: what it returns, or None when it raises.
- **Time.**
  - Wall-clock time, `asyncio.sleep` and fractional seconds are replaced by an integer clock.
  - All clock readings within one iteration of the wait see the same value. The time the remote calls and the callback take counts towards the next iteration.
- **Concurrency.** The shared client used concurrently by several handlers is modelled as single-threaded calls.
- **Configuration and startup.** `main.py` and `settings.py` are not part of this model. The owner's id, the default repository and the bot's username are parameters.
- **Schemas.** `cursor/schemas.py` becomes plain datatypes without validation.
- **Case mapping.** Python's `lower()` and `upper()` are modelled for ASCII letters only.
- **Telegram entities.** Entity offsets count UTF-16 code units in Telegram. Here they index the model's characters.
- Poller.WaitAgentCompletion: requires a positive poll interval (so do `Poller.Run` and the lemmas about it). The source accepts any value, but with zero or a negative interval its loop need not end before the deadline, since only the time the calls take would advance the clock.
- TaskManager.ExtractTitle: its own contract says only that the title is never empty. What the title is, and its bounds, are stated by `TaskManager.ExtractTitleCases`, `TaskManager.ExtractTitleSingleLine` and `TaskManager.ExtractTitleTruncated`. Nothing in the modelled files calls `_extract_title`.
- Gateway.MapStatus: maps the word CREATING to a `Creating` status. As written, `RunStatus` (`cursor/schemas.py:9-15`) has no CREATING member, so `RunStatus.CREATING` at `cursor/client.py:363-364` raises `AttributeError`: a status call for an agent reported as CREATING fails with an unexpected error instead of returning.
- Poller.Step: treats CREATING and RUNNING alike while a follow-up awaits its restart. As written, the membership test at `cursor/client.py:591` evaluates `RunStatus.CREATING` and raises `AttributeError`, so every follow-up wait whose first status poll succeeds ends in an unexpected error. The follow-up lemmas (`Poller.FollowUpAfterRestart`, `Poller.RestartAtAnyPoll`, `Poller.FollowUpReturnsExistingAnswer`, `Poller.NoRestartAnswers`, `Poller.DueCheckIsMade`) describe the evidently intended loop.
