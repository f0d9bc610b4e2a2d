/** The task manager (cursor/task_manager.py): `run_plan`, `run_ask` and
    `run_solve` create an agent with their action, wait for it, and shape its
    output into the text the bot sends; the static formatters add a header
    unless the output already carries the matching emoji, and a reminder to
    bump the project's minor version. */
module TaskManager {
  import opened Schemas
  import opened Text
  import Client
  import Gateway
  import Poller

  const PlanMarker: char := '📋'
  const QuestionsMarker: char := '❓'
  const CodeMarker: char := '💻'

  const PlanHeader: string := [PlanMarker] + " **План рішення:**\n\n"
  const QuestionsHeader: string := [QuestionsMarker] + " **Уточнюючі питання:**\n\n"
  const CodeHeader: string := [CodeMarker] + " **Згенерований код / рішення:**\n\n"

  /** The reminders `_format_plan` and `run_solve` append; the two wordings differ. */
  const PlanSuffix: string := "\n\n🔁 Після внесення змін онови мінорну версію проєкту (наприклад, з `0.0.1` до `0.0.2`)."
  const SolveSuffix: string := "\n\n🔁 Після внесення змін не забудь оновити мінорну версію проєкту (наприклад, з `0.0.1` до `0.0.2`)."

  const NoPlan: string := "План не був згенерований. Спробуйте ще раз."
  const NoQuestions: string := "Питання" + " не були згенеровані. Спробуйте ще раз."
  const NoCode: string := "Код не був згенерований. Спробуйте ще раз або спростіть опис задачі."

  const Untitled: string := "Untitled Task"
  const Ellipsis: string := "..."

  /** `text.strip().startswith(marker)`. */
  predicate HasMarker(text: string, marker: char) {
    StartsWith(Strip(text), [marker])
  }

  /** Appending anything keeps a marker that is already there. */
  lemma MarkerSurvivesAppend(text: string, tail: string, marker: char)
    requires HasMarker(text, marker)
    ensures HasMarker(text + tail, marker)
  {
    StripKeepsHead(text, tail);
  }

  /** A text that begins with a visible marker has it. */
  lemma MarkerAtHead(marker: char, rest: string)
    requires !IsSpace(marker)
    ensures HasMarker([marker] + rest, marker)
  {
    StripVisibleHead(marker, rest);
  }

  /** A text that begins with some other visible character lacks the marker. */
  lemma OtherHeadUnmarked(c: char, rest: string, marker: char)
    requires !IsSpace(c) && c != marker
    ensures !HasMarker([c] + rest, marker)
  {
    StripVisibleHead(c, rest);
  }

  /** A header that begins with a visible marker marks whatever follows it. */
  lemma HeaderMarks(header: string, marker: char, rest: string)
    requires |header| > 0 && header[0] == marker && !IsSpace(marker)
    ensures HasMarker(header + rest, marker)
  {
    assert header + rest == [marker] + (header[1..] + rest);
    MarkerAtHead(marker, header[1..] + rest);
  }

  // ---------------------------------------------------------------- formatters

  /** `_format_plan`: the plan header unless the plan already starts with 📋,
      and always the version reminder. */
  function FormatPlan(plan: string): (r: string)
    ensures EndsWith(r, PlanSuffix)
    ensures r == PlanHeader + plan + PlanSuffix <==> !HasMarker(plan, PlanMarker)
    ensures r == plan + PlanSuffix <==> HasMarker(plan, PlanMarker)
  {
    if !HasMarker(plan, PlanMarker) then PlanHeader + plan + PlanSuffix else plan + PlanSuffix
  }

  /** A formatted plan starts with 📋 once stripped. */
  lemma FormattedPlanIsMarked(plan: string)
    ensures HasMarker(FormatPlan(plan), PlanMarker)
  {
    if HasMarker(plan, PlanMarker) {
      MarkerSurvivesAppend(plan, PlanSuffix, PlanMarker);
    } else {
      HeaderMarks(PlanHeader, PlanMarker, plan + PlanSuffix);
      assert FormatPlan(plan) == PlanHeader + (plan + PlanSuffix);
    }
  }

  /** Formatting a formatted plan again adds no second header, only a second
      reminder. */
  lemma FormatPlanTwice(plan: string)
    ensures FormatPlan(FormatPlan(plan)) == FormatPlan(plan) + PlanSuffix
  {
    FormattedPlanIsMarked(plan);
  }

  /** `_format_questions`: the questions header unless the text already starts
      with ❓; the text itself is kept. */
  function FormatQuestions(questions: string): (r: string)
    ensures EndsWith(r, questions)
    ensures r == questions <==> HasMarker(questions, QuestionsMarker)
    ensures r != questions ==> r == QuestionsHeader + questions
  {
    if !HasMarker(questions, QuestionsMarker) then QuestionsHeader + questions else questions
  }

  /** Formatted questions start with ❓ once stripped. */
  lemma FormattedQuestionsAreMarked(questions: string)
    ensures HasMarker(FormatQuestions(questions), QuestionsMarker)
  {
    if !HasMarker(questions, QuestionsMarker) {
      HeaderMarks(QuestionsHeader, QuestionsMarker, questions);
    }
  }

  /** Formatting questions twice is formatting them once. */
  lemma FormatQuestionsIdempotent(questions: string)
    ensures FormatQuestions(FormatQuestions(questions)) == FormatQuestions(questions)
  {
    FormattedQuestionsAreMarked(questions);
  }

  /** The code text of `run_solve` before the reminder: the header unless the
      code already starts with 💻. */
  function FormatCode(code: string): (r: string)
    ensures EndsWith(r, code)
    ensures r == code <==> HasMarker(code, CodeMarker)
    ensures r != code ==> r == CodeHeader + code
  {
    if !HasMarker(code, CodeMarker) then CodeHeader + code else code
  }

  /** Formatted code starts with 💻 once stripped. */
  lemma FormattedCodeIsMarked(code: string)
    ensures HasMarker(FormatCode(code), CodeMarker)
  {
    if !HasMarker(code, CodeMarker) {
      HeaderMarks(CodeHeader, CodeMarker, code);
    }
  }

  // ---------------------------------------------------------------- titles

  /** The stripped first line of the stripped text. */
  function TitleLine(text: string): string {
    Strip(FirstLine(Strip(text)))
  }

  /** `_extract_title(text, max_length)`; the source's default length of 50
      is not a constant here, since nothing in the core calls it. */
  function ExtractTitle(text: string, maxLength: nat): (r: string)
    ensures r != ""
  {
    if text == "" then Untitled
    else
      var title := TitleLine(text);
      var cut := if |title| > maxLength then BeforeLastSpace(title[..maxLength]) + Ellipsis else title;
      if cut == "" then Untitled else cut
  }

  /** The text holds no line break. */
  predicate SingleLine(s: string) {
    forall i :: 0 <= i < |s| ==> s[i] != '\n'
  }

  /** A stripped piece of text has no line break when the text has none. */
  lemma StripKeepsSingleLine(s: string)
    requires SingleLine(s)
    ensures SingleLine(Strip(s))
  {
    var t := TrimStart(s);
    assert forall i :: 0 <= i < |t| ==> t[i] == s[|s| - |t| + i];
    assert forall i :: 0 <= i < |TrimEnd(t)| ==> TrimEnd(t)[i] == t[i];
  }

  /** The stripped first line has no line break. */
  lemma TitleLineSingle(text: string)
    ensures SingleLine(TitleLine(text))
  {
    StripKeepsSingleLine(FirstLine(Strip(text)));
  }

  /** Cutting a single line back and adding "..." keeps it a single line. */
  lemma CutKeepsSingleLine(line: string, maxLength: nat)
    requires |line| > maxLength && SingleLine(line)
    ensures SingleLine(BeforeLastSpace(line[..maxLength]) + Ellipsis)
  {
    var kept := BeforeLastSpace(line[..maxLength]);
    assert forall i :: 0 <= i < |kept| ==> kept[i] == line[i];
  }

  /** Without a visible first line (the empty text included) the title is
      "Untitled Task"; a first line that fits is the title; a longer one is cut
      back to the last space within its first `maxLength` characters and
      followed by "...". */
  lemma ExtractTitleCases(text: string, maxLength: nat)
    ensures var r := ExtractTitle(text, maxLength); var line := TitleLine(text);
      && (line == "" ==> r == Untitled)
      && (line != "" && |line| <= maxLength ==> r == line)
      && (|line| > maxLength ==> r == BeforeLastSpace(line[..maxLength]) + Ellipsis)
  {
    if text == "" {
      assert TitleLine(text) == "";
    }
  }

  /** Nor has the placeholder title. */
  lemma UntitledSingle()
    ensures SingleLine(Untitled)
  {
  }

  /** The title is a single line. */
  lemma ExtractTitleSingleLine(text: string, maxLength: nat)
    ensures SingleLine(ExtractTitle(text, maxLength))
  {
    var line := TitleLine(text);
    ExtractTitleCases(text, maxLength);
    TitleLineSingle(text);
    if line == "" {
      UntitledSingle();
    } else if |line| > maxLength {
      CutKeepsSingleLine(line, maxLength);
    }
  }

  /** A line cut back to its last space within `maxLength` characters, with
      "..." appended, is at most `maxLength + 3` long and, without the dots, a
      prefix of the line. */
  lemma CutIsBoundedPrefix(line: string, maxLength: nat)
    requires |line| > maxLength
    ensures var r := BeforeLastSpace(line[..maxLength]) + Ellipsis;
      && EndsWith(r, Ellipsis) && |r| <= maxLength + |Ellipsis|
      && StartsWith(line, r[..|r| - |Ellipsis|])
  {
    var kept := BeforeLastSpace(line[..maxLength]);
    var r := kept + Ellipsis;
    assert r[..|r| - |Ellipsis|] == kept;
    assert r[|r| - |Ellipsis|..] == Ellipsis;
    assert line[..|kept|] == kept;
  }

  /** A first line longer than `maxLength` gives a title of at most
      `maxLength + 3` characters ending in "...", which without the dots is a
      prefix of that line. */
  lemma ExtractTitleTruncated(text: string, maxLength: nat)
    requires |TitleLine(text)| > maxLength
    ensures var r := ExtractTitle(text, maxLength);
      && EndsWith(r, Ellipsis) && |r| <= maxLength + |Ellipsis|
      && StartsWith(TitleLine(text), r[..|r| - |Ellipsis|])
  {
    ExtractTitleCases(text, maxLength);
    CutIsBoundedPrefix(TitleLine(text), maxLength);
  }

  // ---------------------------------------------------------------- run_*

  /** The three operations and the action each sends to `create_task`. */
  datatype Action = Plan | Ask | Solve

  function ActionName(a: Action): (r: string)
    ensures r in {"plan", "ask", "code_generate"}
  {
    match a
    case Plan => "plan"
    case Ask => "ask"
    case Solve => "code_generate"
  }

  /** Errors leaving a `run_*`: the client's own errors unchanged, anything else
      rewrapped as a client error without a status code. */
  function Propagate(e: ClientError): (r: ClientError)
    ensures r.ApiError? || r.TimeoutError?
    ensures e.UnexpectedError? <==> r == ApiError(Unexpected, None) && r != e
    ensures !e.UnexpectedError? ==> r == e
  {
    if e.UnexpectedError? then ApiError(Unexpected, None) else e
  }

  /** The text a `run_*` returns for the agent's final `output`. */
  function Shape(a: Action, output: Option<string>): string {
    match a
    case Plan => if Truthy(output) then FormatPlan(output.value) else NoPlan
    case Ask => if Truthy(output) then FormatQuestions(output.value) else NoQuestions
    case Solve => (if Truthy(output) then FormatCode(output.value) else NoCode) + SolveSuffix
  }

  /** What a `run_*` returns or raises, given what `create_task` and
      `wait_agent_completion` return or raise. */
  function Compose(a: Action, created: Result<TaskResponse, ClientError>, waited: Result<RunResponse, ClientError>)
    : (r: Result<(string, string), ClientError>)
    ensures r.Success? <==> created.Success? && waited.Success?
    ensures r.Success? ==> r.value.0 == created.value.id && r.value.1 == Shape(a, waited.value.output)
    ensures created.Failure? ==> r == Failure(Propagate(created.error))
    ensures created.Success? && waited.Failure? ==> r == Failure(Propagate(waited.error))
  {
    if created.Failure? then Failure(Propagate(created.error))
    else if waited.Failure? then Failure(Propagate(waited.error))
    else Success((created.value.id, Shape(a, waited.value.output)))
  }

  /** `run_plan`'s text: the fixed apology exactly when the output is missing
      or empty; otherwise the formatted plan, marked with 📋 and ending with the
      reminder. */
  lemma PlanShape(output: Option<string>)
    ensures Shape(Plan, output) == NoPlan <==> !Truthy(output)
    ensures Truthy(output) ==> HasMarker(Shape(Plan, output), PlanMarker) && EndsWith(Shape(Plan, output), PlanSuffix)
  {
    if Truthy(output) {
      FormattedPlanIsMarked(output.value);
      assert |FormatPlan(output.value)| >= |PlanSuffix| > |NoPlan|;
    }
  }

  /** The apology of `run_ask` does not start with ❓. */
  lemma NoQuestionsUnmarked()
    ensures !HasMarker(NoQuestions, QuestionsMarker)
  {
    var q := NoQuestions;
    assert q[0] == 'П';
    assert q == [q[0]] + q[1..];
    OtherHeadUnmarked(q[0], q[1..], QuestionsMarker);
  }

  /** `run_ask`'s text: the fixed apology exactly when the output is missing or
      empty; otherwise the output, headed by ❓ unless it already was. */
  lemma AskShape(output: Option<string>)
    ensures Shape(Ask, output) == NoQuestions <==> !Truthy(output)
    ensures Truthy(output) ==> HasMarker(Shape(Ask, output), QuestionsMarker) && EndsWith(Shape(Ask, output), output.value)
  {
    if Truthy(output) {
      FormattedQuestionsAreMarked(output.value);
      NoQuestionsUnmarked();
    }
  }

  /** `run_solve`'s text always ends with its reminder, and carries 💻 whenever
      there was an output. */
  lemma SolveShape(output: Option<string>)
    ensures EndsWith(Shape(Solve, output), SolveSuffix)
    ensures Truthy(output) ==> HasMarker(Shape(Solve, output), CodeMarker)
  {
    if Truthy(output) {
      FormattedCodeIsMarked(output.value);
      MarkerSurvivesAppend(FormatCode(output.value), SolveSuffix, CodeMarker);
    }
  }

  /** The external inputs one `run_*` call depends on: the clock at creation, what
      GET /repositories and POST /agents answer, the configured default
      repository, the clock when the wait starts and what the wait observes. */
  datatype Environment = Environment(
    now: int,
    listingReply: HttpReply<Option<seq<Repository>>>,
    defaultRepository: string,
    createReply: HttpReply<Gateway.CreatedRecord>,
    start: int,
    remote: nat -> Observation)

  type Observation = Poller.Observation

  /** The wait of a `run_*` on agent `id`: default timeout and poll interval, no
      initial status. */
  function WaitOn(id: string, hasCallback: bool, env: Environment): Poller.WaitConfig {
    Poller.WaitConfig(id, Poller.DefaultTimeout, Poller.DefaultPollInterval, None, hasCallback, env.start)
  }

  /** The outcome of a `run_*` as a function of its inputs. */
  function Outcome(a: Action, text: string, hasCallback: bool, env: Environment): Result<(string, string), ClientError> {
    var created := Gateway.CreateOutcome(text, env.createReply);
    var waited := if created.Success? then Poller.Run(WaitOn(created.value.id, hasCallback, env), env.remote, Poller.Initial(WaitOn(created.value.id, hasCallback, env))).outcome
                  else Failure(UnexpectedError);
    Compose(a, created, waited)
  }

  /** A `run_*` returns the id of the agent it created, and waits on exactly
      that agent. */
  lemma OutcomeCarriesCreatedId(a: Action, text: string, hasCallback: bool, env: Environment)
    ensures var r := Outcome(a, text, hasCallback, env);
      r.Success? ==> env.createReply.Ok? && r.value.0 == Gateway.TaskId(env.createReply.body)
  {
  }

  /** Shared body of `run_plan`, `run_ask` and `run_solve`: create the agent
      with the operation's action, wait on the id `create_task` returned, shape
      the output. Returns the creation request sent, the id waited on (None when
      creation failed) and the result. */
  method RunAction(client: Client.CursorClient, a: Action, text: string, repositoryUrl: Option<string>,
                   hasCallback: bool, env: Environment)
    returns (request: CreateTaskRequest, waitedOn: Option<string>, r: Result<(string, string), ClientError>)
    modifies client
    ensures request.promptText == Gateway.PromptText(text, Some(ActionName(a)))
    ensures Truthy(repositoryUrl) ==> request.repository == repositoryUrl.value && client.Cache() == old(client.Cache())
    ensures !Truthy(repositoryUrl) ==>
      var l := Client.ListRepositories(old(client.Cache()), true, env.now, env.listingReply);
      client.Cache() == l.cache && request.repository == Gateway.ChooseRepository(repositoryUrl, l.result, env.defaultRepository)
    ensures var created := Gateway.CreateOutcome(text, env.createReply);
      waitedOn == if created.Success? then Some(created.value.id) else None
    ensures r == Outcome(a, text, hasCallback, env)
  {
    var created;
    request, created := client.CreateTask(text, repositoryUrl, Some(ActionName(a)), env.now, env.listingReply,
                                          env.defaultRepository, env.createReply);
    if created.Failure? {
      return request, None, Failure(Propagate(created.error));
    }
    var task := created.value;
    waitedOn := Some(task.id);
    var completed, _ := Poller.WaitAgentCompletion(task.id, Poller.DefaultTimeout, Poller.DefaultPollInterval, None,
                                                   hasCallback, env.start, env.remote);
    if completed.Failure? {
      return request, waitedOn, Failure(Propagate(completed.error));
    }
    r := Success((task.id, Shape(a, completed.value.output)));
  }

  /** `run_plan`. */
  method RunPlan(client: Client.CursorClient, text: string, repositoryUrl: Option<string>, hasCallback: bool, env: Environment)
    returns (request: CreateTaskRequest, r: Result<(string, string), ClientError>)
    modifies client
    ensures request.promptText == Gateway.PromptText(text, Some("plan"))
    ensures Truthy(repositoryUrl) ==> request.repository == repositoryUrl.value && client.Cache() == old(client.Cache())
    ensures !Truthy(repositoryUrl) ==>
      var l := Client.ListRepositories(old(client.Cache()), true, env.now, env.listingReply);
      client.Cache() == l.cache && request.repository == Gateway.ChooseRepository(repositoryUrl, l.result, env.defaultRepository)
    ensures r == Outcome(Plan, text, hasCallback, env)
  {
    var waitedOn;
    request, waitedOn, r := RunAction(client, Plan, text, repositoryUrl, hasCallback, env);
  }

  /** `run_ask`. */
  method RunAsk(client: Client.CursorClient, text: string, repositoryUrl: Option<string>, hasCallback: bool, env: Environment)
    returns (request: CreateTaskRequest, r: Result<(string, string), ClientError>)
    modifies client
    ensures request.promptText == Gateway.PromptText(text, Some("ask"))
    ensures Truthy(repositoryUrl) ==> request.repository == repositoryUrl.value && client.Cache() == old(client.Cache())
    ensures !Truthy(repositoryUrl) ==>
      var l := Client.ListRepositories(old(client.Cache()), true, env.now, env.listingReply);
      client.Cache() == l.cache && request.repository == Gateway.ChooseRepository(repositoryUrl, l.result, env.defaultRepository)
    ensures r == Outcome(Ask, text, hasCallback, env)
  {
    var waitedOn;
    request, waitedOn, r := RunAction(client, Ask, text, repositoryUrl, hasCallback, env);
  }

  /** `run_solve`. */
  method RunSolve(client: Client.CursorClient, text: string, repositoryUrl: Option<string>, hasCallback: bool, env: Environment)
    returns (request: CreateTaskRequest, r: Result<(string, string), ClientError>)
    modifies client
    ensures request.promptText == Gateway.PromptText(text, Some("code_generate"))
    ensures Truthy(repositoryUrl) ==> request.repository == repositoryUrl.value && client.Cache() == old(client.Cache())
    ensures !Truthy(repositoryUrl) ==>
      var l := Client.ListRepositories(old(client.Cache()), true, env.now, env.listingReply);
      client.Cache() == l.cache && request.repository == Gateway.ChooseRepository(repositoryUrl, l.result, env.defaultRepository)
    ensures r == Outcome(Solve, text, hasCallback, env)
  {
    var waitedOn;
    request, waitedOn, r := RunAction(client, Solve, text, repositoryUrl, hasCallback, env);
  }
}
