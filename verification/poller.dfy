/** `wait_agent_completion` (cursor/client.py): the loop that polls an agent's
    status until it completes, fails, expires or the deadline passes, and,
    after a follow-up to an agent that had already completed, decides when
    to look at the conversation and what to return.

    Time is an integer clock in seconds. All clock readings within one
    iteration of the loop see the same value; between two iterations the clock
    advances by the poll interval plus the observation's `delay` (the time the
    remote calls and the callback took). The remote is a stream of
    observations, one per status poll. */
module Poller {
  import opened Schemas
  import Gateway

  const StatusUpdateInterval: int := 10
  const CompletedCheckInterval: int := 15
  const DefaultTimeout: int := 300
  const DefaultPollInterval: int := 5

  /** What the remote and the callback do during the k-th iteration: what
      `get_agent_status` returns or raises for the poll (`Gateway.GetAgentStatus`
      of the HTTP reply), the conversation returned by a separate
      GET /agents/{id}/conversation should the loop make one (None when it
      raises), whether the progress callback raises if it is called, and the
      extra seconds the iteration took. */
  datatype Observation = Observation(
    status: Result<RunResponse, ClientError>,
    conversation: Option<seq<Message>>,
    callbackRaises: bool,
    delay: nat)

  /** The arguments of one wait: `initialStatus` is the status seen before a
      follow-up was sent (None for a fresh agent), `hasCallback` whether a
      progress callback was given, `start` the clock reading at the call. */
  datatype WaitConfig = WaitConfig(agentId: string, timeout: int, pollInterval: int, initialStatus: Option<RunStatus>, hasCallback: bool, start: int)

  /** The remote calls and callback invocations of a wait, with the elapsed
      seconds at which they happen. */
  datatype Call =
    | PolledStatus(elapsed: int)
    | Notified(elapsed: int, status: RunStatus, accepted: bool)
    | CheckedConversation(elapsed: int)   // while waiting for the restart
    | FetchedConversation(elapsed: int)   // once completed after the restart

  /** The loop's local variables between two iterations, plus the calls made
      so far and the index of the next observation. */
  datatype PollState = PollState(
    k: nat,
    now: int,
    lastStatusUpdate: int,
    waitingForRestart: bool,
    seenRunning: bool,
    firstCheckDone: bool,
    lastCheckTime: Option<int>,
    trace: seq<Call>)

  /** How a wait ends, and what it did on the way. */
  datatype Verdict = Verdict(outcome: Result<RunResponse, ClientError>, trace: seq<Call>)

  datatype StepResult = Continue(next: PollState) | Stop(verdict: Verdict)

  predicate FollowUp(cfg: WaitConfig) {
    cfg.initialStatus == Some(Completed)
  }

  /** The state before the first iteration. */
  function Initial(cfg: WaitConfig): PollState {
    PollState(0, cfg.start, 0, FollowUp(cfg), false, false, if FollowUp(cfg) then Some(cfg.start) else None, [])
  }

  /** The text a FAILED agent is reported with: its error when non-empty,
      otherwise the generic wording (None). */
  function FailureDetail(error: Option<string>): Option<string> {
    if Truthy(error) then error else None
  }

  /** The response built from a conversation's latest assistant entry. */
  function Answer(cfg: WaitConfig, text: string): RunResponse {
    RunResponse(cfg.agentId, Completed, Some(text), None)
  }

  /** The calls made up to and including the status poll of this iteration. */
  function Polled(cfg: WaitConfig, s: PollState): seq<Call> {
    s.trace + [PolledStatus(s.now - cfg.start)]
  }

  /** The progress callback: it is called with the polled status when one was
      given and at least ten seconds have passed since the last accepted
      update; the update time advances only when the callback does not raise.
      Yields the calls so far and the new last-update time. */
  function Notify(cfg: WaitConfig, obs: Observation, s: PollState, status: RunStatus): (seq<Call>, int) {
    var elapsed := s.now - cfg.start;
    if cfg.hasCallback && elapsed - s.lastStatusUpdate >= StatusUpdateInterval then
      (Polled(cfg, s) + [Notified(elapsed, status, !obs.callbackRaises)],
       if obs.callbackRaises then s.lastStatusUpdate else elapsed)
    else (Polled(cfg, s), s.lastStatusUpdate)
  }

  /** A completed-status check is due after a follow-up: the first time, and
      then once at least fifteen seconds have passed since the last check. */
  predicate CheckDue(s: PollState) {
    !s.firstCheckDone
    || (s.lastCheckTime.Some? && s.lastCheckTime.value != 0 && s.now - s.lastCheckTime.value >= CompletedCheckInterval)
  }

  /** Still waiting for the follow-up to restart the agent, and it reports
      COMPLETED: look at the conversation when a check is due, and return its
      latest assistant entry if there is one; otherwise keep polling. */
  function WhileCompleted(cfg: WaitConfig, obs: Observation, s: PollState, trace: seq<Call>, lastUpdate: int): StepResult {
    var later := s.now + cfg.pollInterval + obs.delay;
    if !CheckDue(s) then
      Continue(PollState(s.k + 1, later, lastUpdate, true, s.seenRunning, s.firstCheckDone, s.lastCheckTime, trace))
    else
      var checked := trace + [CheckedConversation(s.now - cfg.start)];
      var latest := Gateway.LatestAnswer(obs.conversation);
      if latest.Some? then Stop(Verdict(Success(Answer(cfg, latest.value)), checked))
      else Continue(PollState(s.k + 1, later, lastUpdate, true, s.seenRunning, true, Some(s.now), checked))
  }

  /** The agent reports COMPLETED and no restart is awaited: after a restart was
      seen the conversation's latest assistant entry is the answer (the status
      response when there is none); otherwise the status response. */
  function Finished(cfg: WaitConfig, obs: Observation, s: PollState, st: RunResponse, trace: seq<Call>): Verdict {
    if s.seenRunning then
      var latest := Gateway.LatestAnswer(obs.conversation);
      Verdict(Success(if latest.Some? then Answer(cfg, latest.value) else st), trace + [FetchedConversation(s.now - cfg.start)])
    else Verdict(Success(st), trace)
  }

  /** What the loop does with a successfully polled status `st`. */
  function Decide(cfg: WaitConfig, obs: Observation, s: PollState, st: RunResponse, trace: seq<Call>, lastUpdate: int): StepResult {
    var later := s.now + cfg.pollInterval + obs.delay;
    if s.waitingForRestart && (st.status == Creating || st.status == Running) then
      Continue(PollState(s.k + 1, later, lastUpdate, false, true, s.firstCheckDone, None, trace))
    else if s.waitingForRestart && st.status == Completed then
      WhileCompleted(cfg, obs, s, trace, lastUpdate)
    else if st.status == Completed then
      Stop(Finished(cfg, obs, s, st, trace))
    else if st.status == Failed then
      Stop(Verdict(Failure(ApiError(AgentFailed(FailureDetail(st.error)), None)), trace))
    else if st.status == Expired then
      Stop(Verdict(Failure(ApiError(AgentExpired, None)), trace))
    else
      Continue(PollState(s.k + 1, later, lastUpdate, s.waitingForRestart, s.seenRunning, s.firstCheckDone, s.lastCheckTime, trace))
  }

  /** One iteration of the loop. */
  function Step(cfg: WaitConfig, obs: Observation, s: PollState): (r: StepResult)
    ensures r.Continue? ==>
      && s.now - cfg.start < cfg.timeout
      && r.next.k == s.k + 1
      && r.next.now == s.now + cfg.pollInterval + obs.delay
  {
    if s.now - cfg.start >= cfg.timeout then Stop(Verdict(Failure(TimeoutError), s.trace))
    else
      var reply := obs.status;
      if reply.Failure? then Stop(Verdict(Failure(reply.error), Polled(cfg, s)))
      else
        var n := Notify(cfg, obs, s, reply.value.status);
        Decide(cfg, obs, s, reply.value, n.0, n.1)
  }

  /** The whole wait from state `s`, iterating `Step` over the remote's
      observations until it stops. */
  function Run(cfg: WaitConfig, remote: nat -> Observation, s: PollState): Verdict
    requires cfg.pollInterval > 0
    decreases cfg.timeout - (s.now - cfg.start)
  {
    match Step(cfg, remote(s.k), s)
    case Stop(v) => v
    case Continue(next) => Run(cfg, remote, next)
  }

  /** `wait_agent_completion(agent_id, timeout, poll_interval, initial_status,
      status_callback)` over the clock reading `start` and the observations
      `remote`: returns the agent's final response or the error it raises, and
      the calls it made. */
  method WaitAgentCompletion(agentId: string, timeout: int, pollInterval: int, initialStatus: Option<RunStatus>,
                             hasCallback: bool, start: int, remote: nat -> Observation)
    returns (outcome: Result<RunResponse, ClientError>, trace: seq<Call>)
    requires pollInterval > 0
    ensures var cfg := WaitConfig(agentId, timeout, pollInterval, initialStatus, hasCallback, start);
      Verdict(outcome, trace) == Run(cfg, remote, Initial(cfg))
  {
    ghost var cfg := WaitConfig(agentId, timeout, pollInterval, initialStatus, hasCallback, start);
    var now := start;
    var lastStatusUpdate := 0;
    var waitingForRestart := initialStatus == Some(Completed);
    var seenRunning := false;
    var lastCompletedCheckTime: Option<int> := if waitingForRestart then Some(now) else None;
    var firstCompletedCheckDone := false;
    var k: nat := 0;
    trace := [];
    while true
      invariant Run(cfg, remote, PollState(k, now, lastStatusUpdate, waitingForRestart, seenRunning,
                                           firstCompletedCheckDone, lastCompletedCheckTime, trace))
             == Run(cfg, remote, Initial(cfg))
      decreases timeout - (now - start)
    {
      ghost var s := PollState(k, now, lastStatusUpdate, waitingForRestart, seenRunning,
                               firstCompletedCheckDone, lastCompletedCheckTime, trace);
      var elapsed := now - start;
      if elapsed >= timeout {
        outcome := Failure(TimeoutError);
        return;
      }
      var obs := remote(k);
      trace := trace + [PolledStatus(elapsed)];
      var reply := obs.status;
      if reply.Failure? {
        outcome := Failure(reply.error);
        return;
      }
      var agentStatus := reply.value;

      if hasCallback && elapsed - lastStatusUpdate >= StatusUpdateInterval {
        trace := trace + [Notified(elapsed, agentStatus.status, !obs.callbackRaises)];
        if !obs.callbackRaises {
          lastStatusUpdate := elapsed;
        }
      }
      assert (trace, lastStatusUpdate) == Notify(cfg, obs, s, agentStatus.status);
      ghost var decided := Step(cfg, obs, s);
      assert decided == Decide(cfg, obs, s, agentStatus, trace, lastStatusUpdate);

      if waitingForRestart {
        if agentStatus.status == Creating || agentStatus.status == Running {
          seenRunning := true;
          waitingForRestart := false;
          lastCompletedCheckTime := None;
        } else if agentStatus.status == Completed {
          var shouldCheckConversation := false;
          if !firstCompletedCheckDone {
            shouldCheckConversation := true;
            firstCompletedCheckDone := true;
          } else if lastCompletedCheckTime.Some? && lastCompletedCheckTime.value != 0
                    && now - lastCompletedCheckTime.value >= CompletedCheckInterval {
            shouldCheckConversation := true;
          }
          assert shouldCheckConversation == CheckDue(s);
          if shouldCheckConversation {
            trace := trace + [CheckedConversation(elapsed)];
            var latest := Gateway.LatestAnswer(obs.conversation);
            if latest.Some? {
              outcome := Success(RunResponse(agentId, Completed, latest, None));
              return;
            }
            lastCompletedCheckTime := Some(now);
          }
          now := now + pollInterval + obs.delay;
          k := k + 1;
          assert decided == Continue(PollState(k, now, lastStatusUpdate, waitingForRestart, seenRunning,
                                               firstCompletedCheckDone, lastCompletedCheckTime, trace));
          continue;
        }
      }

      if agentStatus.status == Completed {
        if seenRunning {
          var latest := Gateway.LatestAnswer(obs.conversation);
          trace := trace + [FetchedConversation(elapsed)];
          if latest.Some? {
            outcome := Success(RunResponse(agentId, Completed, latest, None));
            return;
          }
        }
        outcome := Success(agentStatus);
        return;
      } else if agentStatus.status == Failed {
        var detail := if Truthy(agentStatus.error) then agentStatus.error else None;
        outcome := Failure(ApiError(AgentFailed(detail), None));
        return;
      } else if agentStatus.status == Expired {
        outcome := Failure(ApiError(AgentExpired, None));
        return;
      }
      now := now + pollInterval + obs.delay;
      k := k + 1;
      assert decided == Continue(PollState(k, now, lastStatusUpdate, waitingForRestart, seenRunning,
                                           firstCompletedCheckDone, lastCompletedCheckTime, trace));
    }
  }

  // ---------------------------------------------------------------- properties

  /** Seconds elapsed at the j-th status poll when every iteration before it
      went round the loop: each adds the poll interval and its own delay. */
  function ElapsedAt(cfg: WaitConfig, remote: nat -> Observation, j: nat): (e: int)
    requires cfg.pollInterval > 0
    ensures e >= j * cfg.pollInterval
  {
    if j == 0 then 0 else ElapsedAt(cfg, remote, j - 1) + cfg.pollInterval + remote(j - 1).delay
  }

  /** The clock of a state agrees with the iterations it has been through. */
  predicate Timed(cfg: WaitConfig, remote: nat -> Observation, s: PollState)
    requires cfg.pollInterval > 0
  {
    s.now == cfg.start + ElapsedAt(cfg, remote, s.k)
  }

  /** A status poll that ends the wait, whatever else happens: a failed call,
      or a COMPLETED, FAILED or EXPIRED agent. */
  predicate Decisive(r: Result<RunResponse, ClientError>) {
    r.Failure? || r.value.status == Completed || r.value.status == Failed || r.value.status == Expired
  }

  /** What a decisive poll ends the wait with, once no restart is awaited;
      `seen` tells whether the agent was seen restarting after a follow-up. */
  function Settle(cfg: WaitConfig, obs: Observation, seen: bool): Result<RunResponse, ClientError>
    requires Decisive(obs.status)
  {
    var r := obs.status;
    if r.Failure? then Failure(r.error)
    else if r.value.status == Completed then
      var latest := Gateway.LatestAnswer(obs.conversation);
      if seen && latest.Some? then Success(Answer(cfg, latest.value)) else Success(r.value)
    else if r.value.status == Failed then Failure(ApiError(AgentFailed(FailureDetail(r.value.error)), None))
    else Failure(ApiError(AgentExpired, None))
  }

  /** Reference outcome from the j-th poll on: the settlement of the first
      decisive poll made before the deadline, or the timeout. */
  function Settled(cfg: WaitConfig, remote: nat -> Observation, seen: bool, j: nat): Result<RunResponse, ClientError>
    requires cfg.pollInterval > 0
    decreases cfg.timeout - ElapsedAt(cfg, remote, j)
  {
    if ElapsedAt(cfg, remote, j) >= cfg.timeout then Failure(TimeoutError)
    else if Decisive(remote(j).status) then Settle(cfg, remote(j), seen)
    else Settled(cfg, remote, seen, j + 1)
  }

  /** Once no restart is awaited, the wait ends exactly as the reference says. */
  lemma {:induction false} SettledRun(cfg: WaitConfig, remote: nat -> Observation, s: PollState)
    requires cfg.pollInterval > 0
    requires !s.waitingForRestart && Timed(cfg, remote, s)
    ensures Run(cfg, remote, s).outcome == Settled(cfg, remote, s.seenRunning, s.k)
    decreases cfg.timeout - (s.now - cfg.start)
  {
    var r := Step(cfg, remote(s.k), s);
    if r.Continue? {
      SettledRun(cfg, remote, r.next);
    }
  }

  /** Without a follow-up to a completed agent, the wait returns the agent as
      polled at its first COMPLETED, FAILED or EXPIRED status, or the first
      failed status call, if that happens before the deadline; otherwise it
      times out. */
  lemma PlainModeOutcome(cfg: WaitConfig, remote: nat -> Observation)
    requires cfg.pollInterval > 0 && !FollowUp(cfg)
    ensures Run(cfg, remote, Initial(cfg)).outcome == Settled(cfg, remote, false, 0)
  {
    SettledRun(cfg, remote, Initial(cfg));
  }

  /** After a follow-up, once the agent is seen CREATING or RUNNING at the
      first poll, the wait ends at the next decisive poll, and a completion
      then answers with the conversation's latest assistant entry. */
  lemma FollowUpAfterRestart(cfg: WaitConfig, remote: nat -> Observation)
    requires cfg.pollInterval > 0 && FollowUp(cfg) && cfg.timeout > 0
    requires remote(0).status.Success?
    requires remote(0).status.value.status == Creating || remote(0).status.value.status == Running
    ensures Run(cfg, remote, Initial(cfg)).outcome == Settled(cfg, remote, true, 1)
  {
    var r := Step(cfg, remote(0), Initial(cfg));
    assert r.Continue? && !r.next.waitingForRestart && r.next.seenRunning;
    SettledRun(cfg, remote, r.next);
  }

  /** After a follow-up, a poll that sees CREATING or RUNNING ends the wait for
      the restart whenever it comes, also after COMPLETED polls whose checks
      found no answer: the wait then ends at the next decisive poll, and a
      completion answers with the conversation's latest assistant entry. */
  lemma RestartAtAnyPoll(cfg: WaitConfig, remote: nat -> Observation, s: PollState)
    requires cfg.pollInterval > 0 && s.waitingForRestart && Timed(cfg, remote, s)
    requires s.now - cfg.start < cfg.timeout && remote(s.k).status.Success?
    requires remote(s.k).status.value.status == Creating || remote(s.k).status.value.status == Running
    ensures Run(cfg, remote, s).outcome == Settled(cfg, remote, true, s.k + 1)
  {
    var r := Step(cfg, remote(s.k), s);
    assert r.Continue? && !r.next.waitingForRestart && r.next.seenRunning;
    SettledRun(cfg, remote, r.next);
  }

  /** After a follow-up, an agent still COMPLETED at the first poll has its
      conversation read at once, and its latest assistant entry is returned
      even though no restart was seen: with a conversation that already held
      an answer, the wait returns that earlier answer. */
  lemma FollowUpReturnsExistingAnswer(cfg: WaitConfig, remote: nat -> Observation, answer: string)
    requires cfg.pollInterval > 0 && FollowUp(cfg) && cfg.timeout > 0
    requires remote(0).status.Success? && remote(0).status.value.status == Completed
    requires Gateway.LatestAnswer(remote(0).conversation) == Some(answer)
    ensures Run(cfg, remote, Initial(cfg))
         == Verdict(Success(RunResponse(cfg.agentId, Completed, Some(answer), None)), [PolledStatus(0), CheckedConversation(0)])
  {
  }

  /** The calls of a wait after one step. */
  function Calls(r: StepResult): seq<Call> {
    if r.Continue? then r.next.trace else r.verdict.trace
  }

  /** What one iteration adds to the calls `base`: its status poll, then at most
      one callback call right after it and at most one conversation read at the
      end, all at the elapsed time `e`. */
  predicate Grown(base: seq<Call>, t: seq<Call>, e: int) {
    && |base| < |t| <= |base| + 3
    && t[..|base|] == base
    && t[|base|] == PolledStatus(e)
    && (forall i :: |base| < i < |t| ==> t[i].elapsed == e && !t[i].PolledStatus?)
    && (forall i :: |base| + 1 < i < |t| ==> !t[i].Notified?)
    && (forall i :: |base| <= i < |t| - 1 ==> !t[i].CheckedConversation? && !t[i].FetchedConversation?)
  }

  /** The iteration that grew `base` into `t` called the progress callback. */
  predicate NotifiedAfter(base: seq<Call>, t: seq<Call>) {
    |base| + 1 < |t| && t[|base| + 1].Notified?
  }

  /** ... and the callback accepted the call. */
  predicate AcceptedAfter(base: seq<Call>, t: seq<Call>) {
    NotifiedAfter(base, t) && t[|base| + 1].accepted
  }

  /** The iteration that grew `base` into `t` read the conversation while
      waiting for a restart. */
  predicate CheckedAfter(base: seq<Call>, t: seq<Call>) {
    |base| + 1 < |t| && t[|t| - 1].CheckedConversation?
  }

  /** The callback adds at most one call, at the current elapsed time, and moves
      the last-update time there only when the callback accepts it. */
  lemma NotifyCalls(cfg: WaitConfig, obs: Observation, s: PollState, status: RunStatus)
    ensures var n := Notify(cfg, obs, s, status); var e := s.now - cfg.start;
      || (n.0 == Polled(cfg, s) && n.1 == s.lastStatusUpdate)
      || (&& n.0 == Polled(cfg, s) + [Notified(e, status, !obs.callbackRaises)]
          && cfg.hasCallback && e - s.lastStatusUpdate >= StatusUpdateInterval
          && n.1 == (if obs.callbackRaises then s.lastStatusUpdate else e))
  {
  }

  /** Deciding on a polled status adds at most one call, a conversation read at
      the current elapsed time; a check only while a restart is awaited and a
      check is due. When the loop goes on, the last-update time is the one
      given, a restart once seen is never awaited again, and while it is still
      awaited the check bookkeeping moves only with a check. */
  lemma DecideCalls(cfg: WaitConfig, obs: Observation, s: PollState, st: RunResponse, trace: seq<Call>, lastUpdate: int)
    ensures var r := Decide(cfg, obs, s, st, trace, lastUpdate); var c := Calls(r); var e := s.now - cfg.start;
      && (|| c == trace
          || c == trace + [FetchedConversation(e)]
          || (c == trace + [CheckedConversation(e)] && s.waitingForRestart && CheckDue(s)))
      && (r.Continue? ==>
          && r.next.lastStatusUpdate == lastUpdate
          && (r.next.waitingForRestart ==> s.waitingForRestart)
          && (r.next.waitingForRestart && !r.next.firstCheckDone ==> !s.firstCheckDone && c == trace)
          && (r.next.waitingForRestart && r.next.firstCheckDone ==>
                || (c == trace && s.firstCheckDone && r.next.lastCheckTime == s.lastCheckTime)
                || (c == trace + [CheckedConversation(e)] && r.next.lastCheckTime == Some(s.now))))
  {
  }

  /** One iteration, in terms of the calls it adds and the bookkeeping it
      leaves for the next one. */
  lemma StepShape(cfg: WaitConfig, obs: Observation, s: PollState)
    ensures var r := Step(cfg, obs, s); var e := s.now - cfg.start; var t := Calls(r);
      && (e >= cfg.timeout ==> t == s.trace)
      && (e < cfg.timeout ==> Grown(s.trace, t, e))
      && (NotifiedAfter(s.trace, t) ==> cfg.hasCallback && e - s.lastStatusUpdate >= StatusUpdateInterval)
      && (CheckedAfter(s.trace, t) ==> s.waitingForRestart && CheckDue(s))
      && (r.Continue? ==>
          && r.next.lastStatusUpdate == (if AcceptedAfter(s.trace, t) then e else s.lastStatusUpdate)
          && (r.next.waitingForRestart ==> s.waitingForRestart)
          && (r.next.waitingForRestart && !r.next.firstCheckDone ==> !s.firstCheckDone && !CheckedAfter(s.trace, t))
          && (r.next.waitingForRestart && r.next.firstCheckDone ==>
                || (!CheckedAfter(s.trace, t) && s.firstCheckDone && r.next.lastCheckTime == s.lastCheckTime)
                || (CheckedAfter(s.trace, t) && r.next.lastCheckTime == Some(s.now))))
  {
    var e := s.now - cfg.start;
    if e < cfg.timeout {
      var p := Polled(cfg, s);
      var reply := obs.status;
      if reply.Success? {
        var n := Notify(cfg, obs, s, reply.value.status);
        NotifyCalls(cfg, obs, s, reply.value.status);
        var r := Decide(cfg, obs, s, reply.value, n.0, n.1);
        DecideCalls(cfg, obs, s, reply.value, n.0, n.1);
        assert Step(cfg, obs, s) == r;
      }
    }
  }

  /** A successful wait that ends by reading the conversation: a check while a
      restart is awaited, which answers with a conversation entry, or the read
      after a restart was seen. */
  predicate EndsWithConversationRead(cfg: WaitConfig, v: Verdict) {
    && |v.trace| > 0
    && (|| (&& v.trace[|v.trace| - 1].CheckedConversation?
            && v.outcome.Success?
            && v.outcome.value.output.Some?
            && v.outcome.value == Answer(cfg, v.outcome.value.output.value))
        || v.trace[|v.trace| - 1].FetchedConversation?)
  }

  lemma {:induction false} RunReadsConversation(cfg: WaitConfig, remote: nat -> Observation, s: PollState)
    requires cfg.pollInterval > 0 && (s.waitingForRestart || s.seenRunning)
    ensures var v := Run(cfg, remote, s); v.outcome.Success? ==> EndsWithConversationRead(cfg, v)
    decreases cfg.timeout - (s.now - cfg.start)
  {
    var r := Step(cfg, remote(s.k), s);
    if r.Continue? {
      RunReadsConversation(cfg, remote, r.next);
    }
  }

  /** No successful status poll ever reports CREATING or RUNNING: the agent
      never visibly restarts. */
  ghost predicate NeverRestarts(remote: nat -> Observation) {
    forall j: nat :: remote(j).status.Success? ==>
      remote(j).status.value.status != Creating && remote(j).status.value.status != Running
  }

  /** While a restart is awaited and none is ever seen, the polled status
      response is never returned: a successful wait ends with a conversation
      check and answers with that conversation's latest assistant entry. */
  lemma {:induction false} NoRestartAnswers(cfg: WaitConfig, remote: nat -> Observation, s: PollState)
    requires cfg.pollInterval > 0 && s.waitingForRestart && NeverRestarts(remote)
    ensures var v := Run(cfg, remote, s);
      v.outcome.Success? ==>
        && |v.trace| > 0 && v.trace[|v.trace| - 1].CheckedConversation?
        && v.outcome.value.output.Some?
        && v.outcome.value == Answer(cfg, v.outcome.value.output.value)
    decreases cfg.timeout - (s.now - cfg.start)
  {
    var r := Step(cfg, remote(s.k), s);
    if r.Continue? {
      assert r.next.waitingForRestart;
      NoRestartAnswers(cfg, remote, r.next);
    }
  }

  /** After a follow-up to an agent that never visibly restarts, a successful
      wait answers with a conversation entry found by a check, never with the
      polled status response. */
  lemma FollowUpWithoutRestartAnswers(cfg: WaitConfig, remote: nat -> Observation)
    requires cfg.pollInterval > 0 && FollowUp(cfg) && NeverRestarts(remote)
    ensures var v := Run(cfg, remote, Initial(cfg));
      v.outcome.Success? ==>
        && |v.trace| > 0 && v.trace[|v.trace| - 1].CheckedConversation?
        && v.outcome.value.output.Some?
        && v.outcome.value == Answer(cfg, v.outcome.value.output.value)
  {
    NoRestartAnswers(cfg, remote, Initial(cfg));
  }

  /** After a follow-up to a completed agent, the wait never returns the polled
      status response while it still awaits the restart: every successful wait
      ends with a conversation read, either a check that answers with the
      conversation's latest assistant entry, or the read after the restart. */
  lemma FollowUpSuccessReadsConversation(cfg: WaitConfig, remote: nat -> Observation)
    requires cfg.pollInterval > 0 && FollowUp(cfg)
    ensures var v := Run(cfg, remote, Initial(cfg)); v.outcome.Success? ==> EndsWithConversationRead(cfg, v)
  {
    RunReadsConversation(cfg, remote, Initial(cfg));
  }

  /** In either mode, a poll before the deadline that finds the agent FAILED
      raises with the agent's error (or the generic wording), and one that finds
      it EXPIRED raises the expiry error. */
  lemma FailedOrExpiredRaises(cfg: WaitConfig, obs: Observation, s: PollState)
    requires s.now - cfg.start < cfg.timeout && obs.status.Success?
    requires obs.status.value.status == Failed || obs.status.value.status == Expired
    ensures var r := Step(cfg, obs, s);
      && r.Stop?
      && r.verdict.outcome == Failure(ApiError(
           if obs.status.value.status == Failed then AgentFailed(FailureDetail(obs.status.value.error)) else AgentExpired, None))
  {
  }

  /** While a follow-up awaits its restart, a poll before the deadline that
      finds the agent COMPLETED at a time a check is due does read the
      conversation: the wait ends with the latest assistant entry as its answer
      exactly when the conversation has one, and otherwise goes on with that
      check recorded as the last one. */
  lemma DueCheckIsMade(cfg: WaitConfig, obs: Observation, s: PollState)
    requires s.waitingForRestart && CheckDue(s) && s.now - cfg.start < cfg.timeout
    requires obs.status.Success? && obs.status.value.status == Completed
    ensures var r := Step(cfg, obs, s); var latest := Gateway.LatestAnswer(obs.conversation);
      && (r.Stop? <==> latest.Some?)
      && (r.Stop? ==> r.verdict.outcome == Success(Answer(cfg, latest.value)))
      && |Calls(r)| > 0 && Calls(r)[|Calls(r)| - 1] == CheckedConversation(s.now - cfg.start)
      && (r.Continue? ==> r.next.waitingForRestart && r.next.firstCheckDone && r.next.lastCheckTime == Some(s.now))
  {
  }

  /** Once the deadline has passed, the wait raises the timeout without polling
      again. */
  lemma DeadlineStopsPolling(cfg: WaitConfig, obs: Observation, s: PollState)
    requires s.now - cfg.start >= cfg.timeout
    ensures Step(cfg, obs, s) == Stop(Verdict(Failure(TimeoutError), s.trace))
  {
  }

  /** Every call happens before the deadline, and two status polls are at
      least the poll interval apart. */
  predicate PollsPaced(cfg: WaitConfig, trace: seq<Call>) {
    && (forall i :: 0 <= i < |trace| ==> 0 <= trace[i].elapsed < cfg.timeout)
    && (forall i, j :: 0 <= i < j < |trace| && trace[i].PolledStatus? && trace[j].PolledStatus? ==>
          trace[j].elapsed - trace[i].elapsed >= cfg.pollInterval)
  }

  lemma PacedGrown(cfg: WaitConfig, base: seq<Call>, t: seq<Call>, e: int)
    requires PollsPaced(cfg, base) && 0 <= e < cfg.timeout && Grown(base, t, e)
    requires forall i :: 0 <= i < |base| ==> base[i].elapsed <= e - cfg.pollInterval
    ensures PollsPaced(cfg, t)
  {
    forall i | 0 <= i < |base|
      ensures t[i] == base[i]
    {
      assert t[..|base|][i] == t[i];
    }
  }

  predicate PacedBefore(cfg: WaitConfig, s: PollState) {
    && s.now >= cfg.start
    && PollsPaced(cfg, s.trace)
    && (forall i :: 0 <= i < |s.trace| ==> s.trace[i].elapsed <= s.now - cfg.start - cfg.pollInterval)
  }

  lemma StepPaced(cfg: WaitConfig, obs: Observation, s: PollState)
    requires cfg.pollInterval > 0 && PacedBefore(cfg, s)
    ensures var r := Step(cfg, obs, s);
      && (r.Continue? ==> PacedBefore(cfg, r.next))
      && (r.Stop? ==> PollsPaced(cfg, r.verdict.trace))
  {
    var e := s.now - cfg.start;
    var r := Step(cfg, obs, s);
    StepShape(cfg, obs, s);
    if e < cfg.timeout {
      var t := Calls(r);
      PacedGrown(cfg, s.trace, t, e);
      forall i | 0 <= i < |t|
        ensures t[i].elapsed <= e
      {
        if i < |s.trace| {
          assert t[..|s.trace|][i] == t[i];
        }
      }
    }
  }

  lemma {:induction false} RunPaced(cfg: WaitConfig, remote: nat -> Observation, s: PollState)
    requires cfg.pollInterval > 0 && PacedBefore(cfg, s)
    ensures PollsPaced(cfg, Run(cfg, remote, s).trace)
    decreases cfg.timeout - (s.now - cfg.start)
  {
    var r := Step(cfg, remote(s.k), s);
    StepPaced(cfg, remote(s.k), s);
    if r.Continue? {
      RunPaced(cfg, remote, r.next);
    }
  }

  /** The calls of a wait all fall before the deadline, and its status polls
      are at least the poll interval apart. */
  lemma WaitIsPaced(cfg: WaitConfig, remote: nat -> Observation)
    requires cfg.pollInterval > 0
    ensures PollsPaced(cfg, Run(cfg, remote, Initial(cfg)).trace)
  {
    RunPaced(cfg, remote, Initial(cfg));
  }

  /** Two conversation checks while a restart is awaited are at least fifteen
      seconds apart. */
  predicate ChecksSpaced(trace: seq<Call>) {
    forall i, j :: 0 <= i < j < |trace| && trace[i].CheckedConversation? && trace[j].CheckedConversation? ==>
      trace[j].elapsed - trace[i].elapsed >= CompletedCheckInterval
  }

  lemma ChecksGrown(base: seq<Call>, t: seq<Call>, e: int)
    requires ChecksSpaced(base) && Grown(base, t, e)
    requires CheckedAfter(base, t) ==>
      forall i :: 0 <= i < |base| && base[i].CheckedConversation? ==> e - base[i].elapsed >= CompletedCheckInterval
    ensures ChecksSpaced(t)
  {
    forall i | 0 <= i < |base|
      ensures t[i] == base[i]
    {
      assert t[..|base|][i] == t[i];
    }
  }

  /** Between iterations: the checks so far are spaced, every call is in the
      past, none has been a check before the first one is marked done, and
      afterwards every check is no later than the last check time. */
  predicate CheckBookkeeping(cfg: WaitConfig, s: PollState) {
    && ChecksSpaced(s.trace)
    && (forall i :: 0 <= i < |s.trace| ==> s.trace[i].elapsed <= s.now - cfg.start)
    && (s.waitingForRestart && !s.firstCheckDone ==>
          forall i :: 0 <= i < |s.trace| ==> !s.trace[i].CheckedConversation?)
    && (s.waitingForRestart && s.firstCheckDone ==>
          && s.lastCheckTime.Some?
          && forall i :: 0 <= i < |s.trace| && s.trace[i].CheckedConversation? ==>
               s.trace[i].elapsed <= s.lastCheckTime.value - cfg.start)
  }

  lemma StepKeepsChecksSpaced(cfg: WaitConfig, obs: Observation, s: PollState)
    requires cfg.pollInterval > 0 && CheckBookkeeping(cfg, s)
    ensures var r := Step(cfg, obs, s);
      && (r.Continue? ==> CheckBookkeeping(cfg, r.next))
      && (r.Stop? ==> ChecksSpaced(r.verdict.trace))
  {
    var e := s.now - cfg.start;
    var r := Step(cfg, obs, s);
    StepShape(cfg, obs, s);
    if e < cfg.timeout {
      var t := Calls(r);
      ChecksGrown(s.trace, t, e);
      forall i | 0 <= i < |s.trace|
        ensures t[i] == s.trace[i]
      {
        assert t[..|s.trace|][i] == t[i];
      }
    }
  }

  lemma {:induction false} RunChecksSpaced(cfg: WaitConfig, remote: nat -> Observation, s: PollState)
    requires cfg.pollInterval > 0 && CheckBookkeeping(cfg, s)
    ensures ChecksSpaced(Run(cfg, remote, s).trace)
    decreases cfg.timeout - (s.now - cfg.start)
  {
    var r := Step(cfg, remote(s.k), s);
    StepKeepsChecksSpaced(cfg, remote(s.k), s);
    if r.Continue? {
      RunChecksSpaced(cfg, remote, r.next);
    }
  }

  /** While a restart is awaited the conversation is read at most once every
      fifteen seconds. */
  lemma WaitChecksSpaced(cfg: WaitConfig, remote: nat -> Observation)
    requires cfg.pollInterval > 0
    ensures ChecksSpaced(Run(cfg, remote, Initial(cfg)).trace)
  {
    RunChecksSpaced(cfg, remote, Initial(cfg));
  }

  /** Every call of the progress callback comes at least ten seconds after the
      start and after every earlier call the callback accepted. */
  predicate NotificationsSpaced(trace: seq<Call>) {
    && (forall i :: 0 <= i < |trace| && trace[i].Notified? ==> trace[i].elapsed >= StatusUpdateInterval)
    && (forall i, j :: 0 <= i < j < |trace| && trace[i].Notified? && trace[i].accepted && trace[j].Notified? ==>
          trace[j].elapsed - trace[i].elapsed >= StatusUpdateInterval)
  }

  lemma NotificationsGrown(base: seq<Call>, t: seq<Call>, e: int)
    requires NotificationsSpaced(base) && Grown(base, t, e)
    requires NotifiedAfter(base, t) ==> e >= StatusUpdateInterval
    requires NotifiedAfter(base, t) ==>
      forall i :: 0 <= i < |base| && base[i].Notified? && base[i].accepted ==> e - base[i].elapsed >= StatusUpdateInterval
    ensures NotificationsSpaced(t)
  {
    forall i | 0 <= i < |base|
      ensures t[i] == base[i]
    {
      assert t[..|base|][i] == t[i];
    }
  }

  /** Between iterations: the callback calls so far are spaced, and the last
      update time is at or after every accepted call. */
  predicate UpdateBookkeeping(cfg: WaitConfig, s: PollState) {
    && NotificationsSpaced(s.trace)
    && s.lastStatusUpdate >= 0
    && (forall i :: 0 <= i < |s.trace| && s.trace[i].Notified? && s.trace[i].accepted ==>
          s.trace[i].elapsed <= s.lastStatusUpdate)
  }

  lemma StepKeepsNotificationsSpaced(cfg: WaitConfig, obs: Observation, s: PollState)
    requires cfg.pollInterval > 0 && UpdateBookkeeping(cfg, s)
    ensures var r := Step(cfg, obs, s);
      && (r.Continue? ==> UpdateBookkeeping(cfg, r.next))
      && (r.Stop? ==> NotificationsSpaced(r.verdict.trace))
  {
    var e := s.now - cfg.start;
    var r := Step(cfg, obs, s);
    StepShape(cfg, obs, s);
    if e < cfg.timeout {
      var t := Calls(r);
      NotificationsGrown(s.trace, t, e);
      forall i | 0 <= i < |s.trace|
        ensures t[i] == s.trace[i]
      {
        assert t[..|s.trace|][i] == t[i];
      }
    }
  }

  lemma {:induction false} RunNotificationsSpaced(cfg: WaitConfig, remote: nat -> Observation, s: PollState)
    requires cfg.pollInterval > 0 && UpdateBookkeeping(cfg, s)
    ensures NotificationsSpaced(Run(cfg, remote, s).trace)
    decreases cfg.timeout - (s.now - cfg.start)
  {
    var r := Step(cfg, remote(s.k), s);
    StepKeepsNotificationsSpaced(cfg, remote(s.k), s);
    if r.Continue? {
      RunNotificationsSpaced(cfg, remote, r.next);
    }
  }

  /** The progress callback is called at most once every ten seconds counted
      from its last accepted call, and never before ten seconds have passed. */
  lemma WaitNotificationsSpaced(cfg: WaitConfig, remote: nat -> Observation)
    requires cfg.pollInterval > 0
    ensures NotificationsSpaced(Run(cfg, remote, Initial(cfg)).trace)
  {
    RunNotificationsSpaced(cfg, remote, Initial(cfg));
  }

  /** Two states that differ only in the callback bookkeeping and the calls. */
  predicate SameProgress(s: PollState, t: PollState) {
    s.k == t.k && s.now == t.now && s.waitingForRestart == t.waitingForRestart && s.seenRunning == t.seenRunning
    && s.firstCheckDone == t.firstCheckDone && s.lastCheckTime == t.lastCheckTime
  }

  function Silent(cfg: WaitConfig): WaitConfig {
    cfg.(hasCallback := false)
  }

  lemma StepIgnoresCallback(cfg: WaitConfig, obs: Observation, s: PollState, t: PollState)
    requires SameProgress(s, t)
    ensures var r1 := Step(cfg, obs, s);
      var r2 := Step(Silent(cfg), obs, t);
      && r1.Continue? == r2.Continue?
      && (r1.Continue? ==> SameProgress(r1.next, r2.next))
      && (r1.Stop? ==> r1.verdict.outcome == r2.verdict.outcome)
  {
  }

  lemma {:induction false} RunIgnoresCallback(cfg: WaitConfig, remote: nat -> Observation, s: PollState, t: PollState)
    requires cfg.pollInterval > 0 && SameProgress(s, t)
    ensures Run(cfg, remote, s).outcome == Run(Silent(cfg), remote, t).outcome
    decreases cfg.timeout - (s.now - cfg.start)
  {
    StepIgnoresCallback(cfg, remote(s.k), s, t);
    var r1 := Step(cfg, remote(s.k), s);
    var r2 := Step(Silent(cfg), remote(t.k), t);
    if r1.Continue? {
      RunIgnoresCallback(cfg, remote, r1.next, r2.next);
    }
  }

  /** The progress callback, whether given, failing or not, never changes what
      the wait returns or raises (the time it takes is part of the delays). */
  lemma CallbackNeverChangesOutcome(cfg: WaitConfig, remote: nat -> Observation)
    requires cfg.pollInterval > 0
    ensures Run(cfg, remote, Initial(cfg)).outcome == Run(Silent(cfg), remote, Initial(Silent(cfg))).outcome
  {
    RunIgnoresCallback(cfg, remote, Initial(cfg), Initial(Silent(cfg)));
  }
}
