/** The deployment-status synchroniser (`useDeploymentStatus`): a status
    snapshot and a log list kept up to date from a push channel, with a polling
    fallback and a manual refetch. Network calls are not performed here: a
    handler answers with the requests it issues, and the outcome of each request
    arrives later as an event of its own. */
module DeploymentSync {
  import opened Json

  /** The locally held status: the server's record plus `isLoading` and `error`. */
  type Snapshot = Object

  /** A request the hook issues against the status or log endpoint. */
  datatype Request = FetchStatus | FetchLogs

  /** A push-channel message after JSON parsing: its `type`, its `data` object
      (absent when missing or falsy) and its `error` text (absent when missing). */
  datatype Message =
    | Malformed
    | Message(kind: string, data: Option<Object>, error: Option<string>)

  datatype Event =
    | StatusFetched(body: Object)        // the status request resolved with `body`
    | StatusFailed(reason: string)       // no token, or the status request was rejected
    | LogsFetched(logs: Option<seq<string>>)  // the log request resolved; `logs` field if present
    | LogsFailed                         // no token, or the log request was rejected
    | SocketMessage(msg: Message)
    | SocketError
    | SocketClose
    | Tick                               // the polling interval fired
    | Refetch                            // the caller asked for a refresh

  /** The hook's parameters. */
  datatype Config = Config(deploymentId: string, wsEnabled: bool, pollingEnabled: bool)

  /** `timers` counts live polling intervals; `socket` is true while the push channel is open. */
  datatype State = State(
    status: Option<Snapshot>,
    logs: seq<string>,
    error: Option<string>,
    completed: bool,
    timers: nat,
    socket: bool)

  datatype Outcome = Outcome(state: State, requests: seq<Request>)

  /** The socket `onerror` handler as written, or with the completion guard that
      `onclose` already has (see the findings in the README). */
  datatype Variant = AsWritten | Guarded

  const NoTokenMessage: string := "Authentication token not found"

  const BothFetches: seq<Request> := [FetchStatus, FetchLogs]

  predicate IsTerminal(body: Object) {
    "status" in body && (body["status"] == Str("completed") || body["status"] == Str("failed"))
  }

  /** Every snapshot the hook stores carries `isLoading: false` and `error: null`. */
  predicate WellFormed(snap: Snapshot) {
    "isLoading" in snap && snap["isLoading"] == Bool(false) && "error" in snap && snap["error"] == Null
  }

  /** `{...base, isLoading: false, error: null}` */
  function Settle(base: Object): (r: Snapshot)
    ensures WellFormed(r)
    ensures r.Keys == base.Keys + {"isLoading", "error"}
    ensures forall k :: k in base && k != "isLoading" && k != "error" ==> r[k] == base[k]
  {
    base["isLoading" := Bool(false)]["error" := Null]
  }

  /** `{...prev, ...data, isLoading: false, error: null}`: a shallow merge in which
      `data` wins on shared keys and every other field of `prev` is kept. */
  function Merge(prev: Snapshot, data: Object): (r: Snapshot)
    ensures WellFormed(r)
    ensures r.Keys == prev.Keys + data.Keys + {"isLoading", "error"}
    ensures forall k :: k in data && k != "isLoading" && k != "error" ==> r[k] == data[k]
    ensures forall k :: k in prev && k !in data && k != "isLoading" && k != "error" ==> r[k] == prev[k]
  {
    Settle(prev + data)
  }

  /** The state before the hook's effects run. */
  const Initial: State := State(None, [], None, false, 0, false)

  /** `startPolling`: one immediate pull of status and logs, and a new interval. */
  function StartPolling(s: State): (o: Outcome)
    ensures o.state == s.(timers := s.timers + 1)
    ensures o.requests == BothFetches
  {
    Outcome(s.(timers := s.timers + 1), BothFetches)
  }

  /** The two mount effects, in declaration order: open the push channel and pull
      once when it is enabled for a non-empty id; start polling when the push
      channel is disabled and polling is enabled. */
  function Start(c: Config): (o: Outcome)
    ensures o.state.status.None? && o.state.logs == [] && !o.state.completed
    ensures o.state.socket <==> c.wsEnabled && c.deploymentId != ""
    ensures o.state.timers == (if !c.wsEnabled && c.pollingEnabled then 1 else 0)
    ensures o.requests == (if o.state.socket || o.state.timers == 1 then BothFetches else [])
  {
    if c.wsEnabled && c.deploymentId != "" then Outcome(Initial.(socket := true), BothFetches)
    else if !c.wsEnabled && c.pollingEnabled then StartPolling(Initial)
    else Outcome(Initial, [])
  }

  /** The status request resolved: the snapshot is replaced; a terminal status
      marks the deployment completed and pulls the logs one last time. */
  function OnStatusFetched(s: State, body: Object): (o: Outcome)
    ensures o.state.status == Some(Settle(body))
    ensures o.state.completed <==> s.completed || IsTerminal(body)
    ensures o.requests == (if IsTerminal(body) then [FetchLogs] else [])
    ensures o.state.logs == s.logs && o.state.timers == s.timers && o.state.error == s.error
    ensures o.state == s.(status := o.state.status, completed := o.state.completed)
  {
    var s' := s.(status := Some(Settle(body)));
    if IsTerminal(body) then Outcome(s'.(completed := true), [FetchLogs]) else Outcome(s', [])
  }

  /** The status request failed (or no token was stored): the error is recorded
      and the snapshot is left as it was. */
  function OnStatusFailed(s: State, reason: string): (o: Outcome)
    ensures o.state.status == s.status && o.state.logs == s.logs
    ensures o.state.error == Some(reason)
    ensures o.state.completed == s.completed && o.state.timers == s.timers
    ensures o.requests == []
  {
    Outcome(s.(error := Some(reason)), [])
  }

  /** The log request resolved: the list is replaced wholesale only when the
      response carries a `logs` field (an empty array is truthy and replaces too). */
  function OnLogsFetched(s: State, logs: Option<seq<string>>): (o: Outcome)
    ensures logs.Some? ==> o.state == s.(logs := logs.value)
    ensures logs.None? ==> o.state == s
    ensures o.state.status == s.status && o.state.completed == s.completed
    ensures o.requests == []
  {
    match logs
    case Some(l) => Outcome(s.(logs := l), [])
    case None => Outcome(s, [])
  }

  /** `onmessage`. A status update merges into an existing snapshot (and leaves an
      absent one absent) and pulls the logs; a finished signal marks the
      deployment completed and pulls status and logs; an error message is
      recorded; anything else, malformed input included, is ignored. */
  function OnMessage(s: State, m: Message): (o: Outcome)
    ensures m.Message? && m.kind == "status_update" && m.data.Some? ==>
      && o.state.status == (if s.status.Some? then Some(Merge(s.status.value, m.data.value)) else None)
      && o.state.error == s.error && o.state.completed == s.completed
      && o.requests == [FetchLogs]
    ensures m.Message? && m.kind == "deployment_finished" ==>
      && o.state == s.(completed := true)
      && o.requests == BothFetches
    ensures o.state.logs == s.logs && o.state.timers == s.timers
    ensures s.completed ==> o.state.completed
    ensures m.Malformed? ==> o.state == s && o.requests == []
    ensures m.Message? && !(m.kind == "status_update" && m.data.Some?) && m.kind != "deployment_finished" ==>
      && o.requests == []
      && o.state == (if m.error.Some? && m.error.value != "" then s.(error := m.error) else s)
  {
    match m
    case Malformed => Outcome(s, [])
    case Message(kind, data, err) =>
      if kind == "status_update" && data.Some? then
        var merged := if s.status.Some? then Some(Merge(s.status.value, data.value)) else None;
        Outcome(s.(status := merged), [FetchLogs])
      else if kind == "deployment_finished" then
        Outcome(s.(completed := true), BothFetches)
      else if err.Some? && err.value != "" then
        Outcome(s.(error := err), [])
      else
        Outcome(s, [])
  }

  /** `onerror`: fall back to polling when polling is enabled and no interval is
      live. The guarded variant also requires the deployment not to be completed. */
  function OnSocketError(v: Variant, c: Config, s: State): (o: Outcome)
    ensures o.state.timers > s.timers <==>
      c.pollingEnabled && s.timers == 0 && (v.Guarded? ==> !s.completed)
    ensures o.state.timers <= s.timers + 1
    ensures o.state == s.(timers := o.state.timers)
    ensures o.requests == (if o.state.timers > s.timers then BothFetches else [])
  {
    if c.pollingEnabled && s.timers == 0 && (v.AsWritten? || !s.completed) then StartPolling(s)
    else Outcome(s, [])
  }

  /** `onclose`: the channel is gone; fall back to polling when polling is
      enabled, the deployment is not completed and no interval is live. */
  function OnSocketClose(c: Config, s: State): (o: Outcome)
    ensures !o.state.socket
    ensures o.state.timers > s.timers <==> c.pollingEnabled && !s.completed && s.timers == 0
    ensures o.state.timers <= s.timers + 1
    ensures o.state == s.(socket := false, timers := o.state.timers)
    ensures o.requests == (if o.state.timers > s.timers then BothFetches else [])
  {
    var s' := s.(socket := false);
    if c.pollingEnabled && !s.completed && s.timers == 0 then StartPolling(s') else Outcome(s', [])
  }

  /** An interval tick: once the deployment is completed the interval cancels
      itself without pulling; otherwise it pulls status and logs. */
  function OnTick(s: State): (o: Outcome)
    requires s.timers > 0
    ensures s.completed ==> o.state == s.(timers := s.timers - 1) && o.requests == []
    ensures !s.completed ==> o.state == s && o.requests == BothFetches
  {
    if s.completed then Outcome(s.(timers := s.timers - 1), []) else Outcome(s, BothFetches)
  }

  /** One event. Socket events only arrive while the channel is open, and ticks
      only while an interval is live; otherwise they change nothing. */
  function Step(v: Variant, c: Config, s: State, e: Event): Outcome {
    match e
    case StatusFetched(body) => OnStatusFetched(s, body)
    case StatusFailed(reason) => OnStatusFailed(s, reason)
    case LogsFetched(logs) => OnLogsFetched(s, logs)
    case LogsFailed => Outcome(s, [])
    case SocketMessage(m) => if s.socket then OnMessage(s, m) else Outcome(s, [])
    case SocketError => if s.socket then OnSocketError(v, c, s) else Outcome(s, [])
    case SocketClose => if s.socket then OnSocketClose(c, s) else Outcome(s, [])
    case Tick => if s.timers > 0 then OnTick(s) else Outcome(s, [])
    case Refetch => Outcome(s, BothFetches)
  }

  /** The state after a sequence of events. */
  function RunFrom(v: Variant, c: Config, s: State, events: seq<Event>): State
    decreases |events|
  {
    if events == [] then s else RunFrom(v, c, Step(v, c, s, events[0]).state, events[1..])
  }

  function Run(v: Variant, c: Config, events: seq<Event>): State {
    RunFrom(v, c, Start(c).state, events)
  }

  /** What every reachable state satisfies: at most one live interval, a
      well-formed snapshot, and no interval at all when polling is disabled. */
  predicate Inv(c: Config, s: State) {
    && s.timers <= 1
    && (!c.pollingEnabled ==> s.timers == 0)
    && (s.status.Some? ==> WellFormed(s.status.value))
    && (s.socket ==> c.wsEnabled)
    && (s.timers == 1 && !c.wsEnabled ==> !s.socket)
  }

  lemma StepPreservesInv(v: Variant, c: Config, s: State, e: Event)
    requires Inv(c, s)
    ensures Inv(c, Step(v, c, s, e).state)
  {
  }

  /** Safety: whatever the interleaving of responses, socket events, ticks and
      refetches, there is never more than one live polling interval. */
  lemma {:induction false} AtMostOneTimer(v: Variant, c: Config, s: State, events: seq<Event>)
    requires Inv(c, s)
    ensures Inv(c, RunFrom(v, c, s, events))
    ensures RunFrom(v, c, s, events).timers <= 1
    decreases |events|
  {
    if events != [] {
      StepPreservesInv(v, c, s, events[0]);
      AtMostOneTimer(v, c, Step(v, c, s, events[0]).state, events[1..]);
    }
  }

  lemma RunKeepsInv(v: Variant, c: Config, events: seq<Event>)
    ensures Inv(c, Run(v, c, events))
  {
    AtMostOneTimer(v, c, Start(c).state, events);
  }

  /** The completed flag is never reset: by any single event ... */
  lemma StepKeepsCompleted(v: Variant, c: Config, s: State, e: Event)
    ensures s.completed ==> Step(v, c, s, e).state.completed
  {
  }

  /** ... nor by any sequence of events. */
  lemma {:induction false} CompletedIsAbsorbing(v: Variant, c: Config, s: State, events: seq<Event>)
    requires s.completed
    ensures RunFrom(v, c, s, events).completed
    decreases |events|
  {
    if events != [] {
      StepKeepsCompleted(v, c, s, events[0]);
      CompletedIsAbsorbing(v, c, Step(v, c, s, events[0]).state, events[1..]);
    }
  }

  /** With the guarded `onerror`, no event ever starts an interval once the
      deployment is completed. */
  lemma GuardedStepStartsNoTimerWhenCompleted(c: Config, s: State, e: Event)
    requires s.completed
    ensures Step(Guarded, c, s, e).state.timers <= s.timers
  {
  }

  lemma {:induction false} GuardedNoTimerAfterCompletion(c: Config, s: State, events: seq<Event>)
    requires s.completed
    ensures RunFrom(Guarded, c, s, events).timers <= s.timers
    decreases |events|
  {
    if events != [] {
      var s' := Step(Guarded, c, s, events[0]).state;
      GuardedStepStartsNoTimerWhenCompleted(c, s, events[0]);
      StepKeepsCompleted(Guarded, c, s, events[0]);
      GuardedNoTimerAfterCompletion(c, s', events[1..]);
    }
  }

  /** As written, a socket error after completion starts a new interval and pulls
      status and logs again. */
  lemma AsWrittenErrorRestartsPollingAfterCompletion()
    ensures
      var c := Config("dep-123", true, true);
      var s := State(None, [], None, true, 0, true);
      var o := Step(AsWritten, c, s, SocketError);
      o.state.timers == 1 && o.requests == BothFetches
  {
  }

  /** What the hook returns to its caller: the snapshot and the logs. */
  datatype Observed = Observed(status: Option<Snapshot>, logs: seq<string>)

  function Observe(s: State): Observed {
    Observed(s.status, s.logs)
  }

  /** The page takes its error from `status.error`; a well-formed snapshot always
      holds `null` there, so the page never sees a failed pull as written. */
  predicate PageSeesError(r: Observed) {
    r.status.Some? && "error" in r.status.value && Truthy(r.status.value["error"])
  }

  lemma {:induction false} FailedPullNeverReachesPage(v: Variant, c: Config, events: seq<Event>, reason: string)
    ensures !PageSeesError(Observe(Run(v, c, events + [StatusFailed(reason)])))
  {
    var s := Run(v, c, events);
    RunKeepsInv(v, c, events + [StatusFailed(reason)]);
  }

  /** The observation with the hook's `error` state returned beside the snapshot. */
  datatype ObservedWithError = ObservedWithError(status: Option<Snapshot>, logs: seq<string>, error: Option<string>)

  function ObserveWithError(s: State): ObservedWithError {
    ObservedWithError(s.status, s.logs, s.error)
  }

  /** With the error returned, a failed pull is visible to the page and the last
      snapshot stays on display. */
  lemma FailedPullReachesPageWhenReturned(v: Variant, c: Config, s: State, reason: string)
    ensures
      var r := ObserveWithError(Step(v, c, s, StatusFailed(reason)).state);
      r.error == Some(reason) && r.status == s.status
  {
  }

  /** The scenario of a status update after an initial pending pull: the status
      changes, the other fields stay, and the logs are pulled once more. */
  lemma StatusUpdateScenario()
    ensures
      var c := Config("dep-123", true, true);
      var s0 := Start(c).state;
      var body := map["deployment_id" := Str("dep-123"), "status" := Str("pending"), "name" := Str("web")];
      var s1 := Step(AsWritten, c, s0, StatusFetched(body)).state;
      var o := Step(AsWritten, c, s1, SocketMessage(Message("status_update", Some(map["status" := Str("in_progress")]), None)));
      && o.state.status.Some?
      && o.state.status.value["status"] == Str("in_progress")
      && o.state.status.value["name"] == Str("web")
      && o.requests == [FetchLogs]
  {
  }

  /** Base address of the API as a parsed URL. */
  datatype Url = Url(protocol: string, host: string)

  const DefaultApiBase: Url := Url("https:", "platform-hub.onrender.com")

  const WsPath: string := "/ws/deployments/"

  /** The push-channel address: `wss:` exactly when the API is reached over
      `https:`, the API's host, and the deployment-scoped path. An unset base
      falls back to the hosted default. */
  function WsUrl(base: Option<Url>, id: string): (r: string)
    ensures var b := base.GetOr(DefaultApiBase);
      var scheme := if b.protocol == "https:" then "wss:" else "ws:";
      && |r| == |scheme| + 2 + |b.host| + |WsPath + id|
      && (r[..4] == "wss:" <==> b.protocol == "https:")
      && r[..|scheme| + 2] == scheme + "//"
      && r[|scheme| + 2..|scheme| + 2 + |b.host|] == b.host
      && r[|r| - |WsPath + id|..] == WsPath + id
  {
    var b := base.GetOr(DefaultApiBase);
    var scheme := if b.protocol == "https:" then "wss:" else "ws:";
    var r := scheme + "//" + b.host + WsPath + id;
    assert r[..|scheme|] == scheme;
    assert r[..4] == (if b.protocol == "https:" then "wss:" else "ws:/");
    r
  }
}
