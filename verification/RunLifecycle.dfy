/**
 The life of a call run: websocket connects and provider status callbacks
 (api/routes/telephony.py, api/db/workflow_run_client.py), each taken as one atomic step.
 */
module RunLifecycle {
  import opened Wrappers
  import opened Json

  datatype RunState = Initialized | Running | Completed

  datatype Run = Run(
    state: RunState, isCompleted: bool, initialContext: Object, gathered: Object, logs: Object)

  // ---------- The locked merge update ----------

  /** Arguments of an update; empty objects and None stand for arguments not given. */
  datatype Change = Change(isCompleted: bool, initialContext: Object, gathered: Object, logs: Object,
      state: Option<RunState>)

  const NO_CHANGE: Change := Change(false, map[], map[], map[], None)

  function Merged(run: Run, c: Change): Run {
    Run(c.state.GetOr(run.state),
        run.isCompleted || c.isCompleted,
        if c.initialContext != map[] then c.initialContext else run.initialContext,
        run.gathered + c.gathered,
        run.logs + c.logs)
  }

  /** Given entries win over stored ones, stored ones stay, and completion is never taken back. */
  lemma MergeIsRightBiased(run: Run, c: Change, key: string)
    ensures var m := Merged(run, c);
            && m.state == (if c.state.Some? then c.state.value else run.state)
            && (m.isCompleted <==> run.isCompleted || c.isCompleted)
            && m.initialContext == (if c.initialContext != map[] then c.initialContext else run.initialContext)
            && (key in m.gathered <==> key in run.gathered || key in c.gathered)
            && (key in m.gathered ==>
                  m.gathered[key] == if key in c.gathered then c.gathered[key] else run.gathered[key])
            && (key in m.logs <==> key in run.logs || key in c.logs)
            && (key in m.logs ==> m.logs[key] == if key in c.logs then c.logs[key] else run.logs[key])
  {
  }

  // ---------- Status callbacks ----------

  const LOG_KEY: string := "telephony_status_callbacks"
  const TAGS_KEY: string := "call_tags"

  datatype Status = Status(status: string, timestamp: string, callId: string, duration: Json, extra: Object)

  predicate IsFailure(status: string) {
    status in {"failed", "busy", "no-answer", "canceled", "error"}
  }

  /** Statuses that conclude a follow-up callback. */
  predicate ConcludesCallback(status: string) {
    status == "completed" || IsFailure(status) || status == "voicemail"
  }

  /** Provider data comes last, so it wins over the standard keys. */
  function LogEntry(s: Status): Json {
    Obj(map["status" := Str(s.status), "timestamp" := Str(s.timestamp), "call_id" := Str(s.callId),
      "duration" := s.duration]
        + s.extra)
  }

  /** The list under a key, [] when absent, None when something other than a list is there. */
  function ListAt(fields: Object, key: string): Option<seq<Json>> {
    if key !in fields then Some([])
    else match fields[key]
         case Arr(items) => Some(items)
         case _ => None
  }

  function FailureTags(status: string): seq<Json> {
    [Str("not_connected"), Str("telephony_" + status)]
  }

  /** `outcome` is the callback id and status passed on to the callback scheduler, if any. */
  datatype Processed = Processed(run: Run, raised: bool, outcome: Option<(Json, string)>)

  function ProcessStatus(run: Run, s: Status): Processed {
    match ListAt(run.logs, LOG_KEY)
    case None => Processed(run, true, None)
    case Some(log) =>
      var logged := run.(logs := run.logs[LOG_KEY := Arr(log + [LogEntry(s)])]);
      var callback := Get(run.gathered, "callback_id");
      var outcome := if Truthy(callback) && ConcludesCallback(s.status) then Some((callback, s.status)) else None;
      if s.status == "completed" then
        if run.state == Completed then Processed(logged, false, outcome)
        else Processed(logged.(isCompleted := true, state := Completed), false, outcome)
      else if IsFailure(s.status) then
        match ListAt(run.gathered, TAGS_KEY)
        case None => Processed(logged, true, outcome)
        case Some(tags) =>
          var tagged := run.gathered[TAGS_KEY := Arr(tags + FailureTags(s.status))];
          Processed(logged.(isCompleted := true, state := Completed, gathered := tagged), false, outcome)
      else Processed(logged, false, outcome)
  }

  // ---------- Websocket connects ----------

  datatype Answer = Accepted | Closed(code: int) | Raised

  /** `configured` is the organization's provider, None when looking it up raises. */
  function AnswerTo(run: Option<Run>, workflowExists: bool, configured: Option<string>): Answer {
    if run.None? || !workflowExists then Closed(4404)
    else if run.value.state != Initialized then Closed(4409)
    else if !Truthy(Get(run.value.initialContext, "provider")) then Closed(4400)
    else if configured.None? then Raised
    else if Str(configured.value) != Get(run.value.initialContext, "provider") then Closed(4400)
    else Accepted
  }

  // ---------- Runs of the system ----------

  datatype System = System(runs: map<int, Run>, accepted: seq<int>, outcomes: seq<(Json, string)>)

  datatype Event =
    | Callback(run: int, status: Status)
    | Connect(run: int, workflowExists: bool, configured: Option<string>)

  function Lookup(y: System, id: int): Option<Run> {
    if id in y.runs then Some(y.runs[id]) else None
  }

  function Step(y: System, e: Event): System {
    match e
    case Callback(id, status) =>
      if id !in y.runs then y
      else
        var p := ProcessStatus(y.runs[id], status);
        y.(runs := y.runs[id := p.run], outcomes := y.outcomes + (if p.outcome.Some? then [p.outcome.value] else []))
    case Connect(id, workflowExists, configured) =>
      if AnswerTo(Lookup(y, id), workflowExists, configured) != Accepted then y
      else y.(runs := y.runs[id := y.runs[id].(state := Running)], accepted := y.accepted + [id])
  }

  function RunAll(y: System, events: seq<Event>): System
    decreases |events|
  {
    if events == [] then y else RunAll(Step(y, events[0]), events[1..])
  }

  // ---------- What never goes back ----------

  function Rank(s: RunState): nat {
    match s
    case Initialized => 0
    case Running => 1
    case Completed => 2
  }

  ghost predicate ListExtends(before: Option<seq<Json>>, after: Option<seq<Json>>) {
    if before.None? then after.None? else after.Some? && before.value <= after.value
  }

  /** Later versions of a run: the state only advances, completion stays, no context key is lost and
      only the tag list changes in place, and the status log and the tags grow at the end. */
  ghost predicate Extends(r: Run, r': Run) {
    && Rank(r.state) <= Rank(r'.state)
    && (r.isCompleted ==> r'.isCompleted)
    && r'.initialContext == r.initialContext
    && r.gathered.Keys <= r'.gathered.Keys && r.logs.Keys <= r'.logs.Keys
    && (forall k :: k in r.gathered && k != TAGS_KEY ==> r'.gathered[k] == r.gathered[k])
    && (forall k :: k in r.logs && k != LOG_KEY ==> r'.logs[k] == r.logs[k])
    && ListExtends(ListAt(r.logs, LOG_KEY), ListAt(r'.logs, LOG_KEY))
    && ListExtends(ListAt(r.gathered, TAGS_KEY), ListAt(r'.gathered, TAGS_KEY))
  }

  ghost predicate SystemExtends(y: System, y': System) {
    && y'.runs.Keys == y.runs.Keys
    && y.accepted <= y'.accepted && y.outcomes <= y'.outcomes
    && forall id :: id in y.runs ==> Extends(y.runs[id], y'.runs[id])
  }

  lemma ExtendsTransitive(a: Run, b: Run, c: Run)
    requires Extends(a, b) && Extends(b, c)
    ensures Extends(a, c)
  {
  }

  lemma LoggingExtends(run: Run, entry: Json)
    requires ListAt(run.logs, LOG_KEY).Some?
    ensures Extends(run, run.(logs := run.logs[LOG_KEY := Arr(ListAt(run.logs, LOG_KEY).value + [entry])]))
  {
  }

  lemma TaggingExtends(run: Run, more: seq<Json>)
    requires ListAt(run.gathered, TAGS_KEY).Some?
    ensures Extends(run, run.(isCompleted := true, state := Completed,
                              gathered := run.gathered[TAGS_KEY := Arr(ListAt(run.gathered, TAGS_KEY).value + more)]))
  {
  }

  lemma StatusExtends(run: Run, s: Status)
    ensures Extends(run, ProcessStatus(run, s).run)
  {
    var log := ListAt(run.logs, LOG_KEY);
    if log.Some? {
      var logged := run.(logs := run.logs[LOG_KEY := Arr(log.value + [LogEntry(s)])]);
      LoggingExtends(run, LogEntry(s));
      if IsFailure(s.status) && ListAt(run.gathered, TAGS_KEY).Some? {
        TaggingExtends(logged, FailureTags(s.status));
        ExtendsTransitive(run, logged, ProcessStatus(run, s).run);
      }
    }
  }

  lemma StepExtends(y: System, e: Event)
    ensures SystemExtends(y, Step(y, e))
  {
    match e
    case Callback(id, status) =>
      if id in y.runs {
        StatusExtends(y.runs[id], status);
      }
    case Connect(id, workflowExists, configured) =>
  }

  /** Over every sequence of status callbacks and connects, on any number of runs. */
  lemma {:induction false} NothingGoesBack(y: System, events: seq<Event>)
    ensures SystemExtends(y, RunAll(y, events))
    decreases |events|
  {
    if events != [] {
      var y', e := Step(y, events[0]), RunAll(y, events);
      StepExtends(y, events[0]);
      NothingGoesBack(y', events[1..]);
      forall id | id in y.runs ensures Extends(y.runs[id], e.runs[id]) {
        ExtendsTransitive(y.runs[id], y'.runs[id], e.runs[id]);
      }
    }
  }

  // ---------- Connects ----------

  ghost predicate ConnectsSpent(y: System) {
    forall id :: multiset(y.accepted)[id] <= 1 && (id in y.accepted ==> id in y.runs && y.runs[id].state != Initialized)
  }

  lemma StepKeepsConnectsSpent(y: System, e: Event)
    requires ConnectsSpent(y)
    ensures ConnectsSpent(Step(y, e))
  {
    StepExtends(y, e);
    var y' := Step(y, e);
    forall id
      ensures multiset(y'.accepted)[id] <= 1
      ensures id in y'.accepted ==> id in y'.runs && y'.runs[id].state != Initialized
    {
      assert id in y.accepted <==> multiset(y.accepted)[id] > 0;
    }
  }

  /** Each run accepts at most one websocket. */
  lemma {:induction false} AtMostOneConnect(y: System, events: seq<Event>)
    requires ConnectsSpent(y)
    ensures ConnectsSpent(RunAll(y, events))
    decreases |events|
  {
    if events != [] {
      StepKeepsConnectsSpent(y, events[0]);
      AtMostOneConnect(Step(y, events[0]), events[1..]);
    }
  }

  // ---------- Completion ----------

  /** Exactly which status callbacks leave a run completed. A voicemail is not among them, and neither
      is a failure that finds something other than a list where the tags belong. */
  predicate Completes(run: Run, s: Status) {
    && ListAt(run.logs, LOG_KEY).Some?
    && (s.status == "completed" || (IsFailure(s.status) && ListAt(run.gathered, TAGS_KEY).Some?))
  }

  lemma CompletesExactly(run: Run, s: Status)
    ensures ProcessStatus(run, s).run.state == Completed <==> run.state == Completed || Completes(run, s)
    ensures ProcessStatus(run, s).run.state == Running <==> run.state == Running && !Completes(run, s)
  {
  }

  predicate RunWellformed(run: Run) {
    && ("telephony_status_callbacks" in run.logs ==> run.logs["telephony_status_callbacks"].Arr?)
    && ("call_tags" in run.gathered ==> run.gathered["call_tags"].Arr?)
    && (run.state == Completed ==> run.isCompleted)
  }

  ghost predicate Wellformed(y: System) {
    forall id :: id in y.runs ==> RunWellformed(y.runs[id])
  }

  lemma StatusKeepsWellformed(run: Run, s: Status)
    requires RunWellformed(run)
    ensures RunWellformed(ProcessStatus(run, s).run)
  {
  }

  lemma StepKeepsWellformed(y: System, e: Event)
    requires Wellformed(y)
    ensures Wellformed(Step(y, e))
  {
    if e.Callback? && e.run in y.runs {
      StatusKeepsWellformed(y.runs[e.run], e.status);
    }
  }

  /** The statuses after which nothing more comes for a call. */
  predicate IsTerminal(status: string) {
    status in {"completed", "failed", "busy", "no-answer", "canceled", "error"}
  }

  /** A terminal status arrives for the run. */
  predicate Concludes(e: Event, id: int) {
    e.Callback? && e.run == id && IsTerminal(e.status.status)
  }

  lemma StepCompletes(y: System, e: Event, id: int)
    requires Wellformed(y) && id in y.runs
    ensures id in Step(y, e).runs
    ensures Step(y, e).runs[id].state == Completed <==> y.runs[id].state == Completed || Concludes(e, id)
  {
    if e.Callback? && e.run == id {
      CompletesExactly(y.runs[id], e.status);
    }
  }

  /** Over every sequence of events a run is completed exactly if it was, or a terminal status has been
      processed for it, whatever came before or after; voicemail and progress reports never complete it. */
  lemma {:induction false} TerminalStatusIsFinal(y: System, events: seq<Event>, id: int)
    requires Wellformed(y) && id in y.runs
    ensures var e := RunAll(y, events);
            && id in e.runs
            && (e.runs[id].state == Completed <==>
                y.runs[id].state == Completed || exists k :: 0 <= k < |events| && Concludes(events[k], id))
            && (e.runs[id].state == Completed ==> e.runs[id].isCompleted)
    decreases |events|
  {
    if events != [] {
      StepKeepsWellformed(y, events[0]);
      StepCompletes(y, events[0], id);
      TerminalStatusIsFinal(Step(y, events[0]), events[1..], id);
      assert (exists k :: 0 <= k < |events| && Concludes(events[k], id)) <==>
             Concludes(events[0], id) || exists k :: 0 <= k < |events[1..]| && Concludes(events[1..][k], id) by {
        assert forall k :: 1 <= k < |events| ==> events[1..][k - 1] == events[k];
      }
    }
  }

  function CallbackIdOf(runs: map<int, Run>, id: int): Json {
    if id in runs then Get(runs[id].gathered, "callback_id") else Null
  }

  /** The outcomes that events pass on, judged by the callback ids the runs had at the beginning. */
  function OutcomesOf(runs: map<int, Run>, events: seq<Event>): seq<(Json, string)>
    decreases |events|
  {
    if events == [] then [] else OutcomeOf(runs, events[0]) + OutcomesOf(runs, events[1..])
  }

  function OutcomeOf(runs: map<int, Run>, e: Event): seq<(Json, string)> {
    if e.Callback? && Truthy(CallbackIdOf(runs, e.run))
      && (IsTerminal(e.status.status) || e.status.status == "voicemail")
    then [(CallbackIdOf(runs, e.run), e.status.status)]
    else []
  }

  ghost predicate SameCallbackIds(a: map<int, Run>, b: map<int, Run>) {
    forall id :: CallbackIdOf(a, id) == CallbackIdOf(b, id)
  }

  lemma StepPassesOutcome(y: System, e: Event)
    requires Wellformed(y)
    ensures Step(y, e).outcomes == y.outcomes + OutcomeOf(y.runs, e)
    ensures SameCallbackIds(y.runs, Step(y, e).runs)
  {
    if e.Callback? && e.run in y.runs {
      StatusPassesOutcome(y.runs[e.run], e.status);
    }
  }

  lemma StatusPassesOutcome(run: Run, s: Status)
    requires ListAt(run.logs, LOG_KEY).Some?
    ensures var id := Get(run.gathered, "callback_id");
            && Get(ProcessStatus(run, s).run.gathered, "callback_id") == id
            && ProcessStatus(run, s).outcome ==
               if Truthy(id) && ConcludesCallback(s.status) then Some((id, s.status)) else None
  {
  }

  lemma {:induction false} SameIdsSameOutcomes(a: map<int, Run>, b: map<int, Run>, events: seq<Event>)
    requires SameCallbackIds(a, b)
    ensures OutcomesOf(a, events) == OutcomesOf(b, events)
    decreases |events|
  {
    if events != [] {
      assert events[0].Callback? ==> CallbackIdOf(a, events[0].run) == CallbackIdOf(b, events[0].run);
      SameIdsSameOutcomes(a, b, events[1..]);
    }
  }

  lemma FirstThenRest(y: System, e: Event, rest: seq<Event>)
    requires Wellformed(y)
    ensures Wellformed(Step(y, e))
    ensures Step(y, e).outcomes + OutcomesOf(Step(y, e).runs, rest) ==
            y.outcomes + (OutcomeOf(y.runs, e) + OutcomesOf(y.runs, rest))
  {
    StepPassesOutcome(y, e);
    StepKeepsWellformed(y, e);
    SameIdsSameOutcomes(y.runs, Step(y, e).runs, rest);
  }

  /** Over every sequence of events exactly the concluding statuses of runs that began with a callback id
      are passed on, in order, whether or not they complete the run: voicemail too, and reports on runs
      that are completed already. */
  lemma {:induction false} OutcomesPassedOn(y: System, events: seq<Event>)
    requires Wellformed(y)
    ensures RunAll(y, events).outcomes == y.outcomes + OutcomesOf(y.runs, events)
    decreases |events|
  {
    if events != [] {
      FirstThenRest(y, events[0], events[1..]);
      OutcomesPassedOn(Step(y, events[0]), events[1..]);
      assert RunAll(y, events) == RunAll(Step(y, events[0]), events[1..]);
    }
  }

  /** What one status does to a run whose log and tags are lists: the log gets one entry, in which the
      provider's own data win; a failure adds its two tags; nothing else in the contexts changes. */
  lemma StatusIsRecorded(run: Run, s: Status)
    requires RunWellformed(run)
    ensures var r := ProcessStatus(run, s).run;
            var entry := Obj(map["status" := Str(s.status), "timestamp" := Str(s.timestamp),
                                 "call_id" := Str(s.callId), "duration" := s.duration] + s.extra);
            var log := if "telephony_status_callbacks" in run.logs then run.logs["telephony_status_callbacks"].items
              else [];
            var tags := if "call_tags" in run.gathered then run.gathered["call_tags"].items else [];
            && !ProcessStatus(run, s).raised
            && r.initialContext == run.initialContext
            && r.logs == run.logs["telephony_status_callbacks" := Arr(log + [entry])]
            && r.gathered == (if s.status in {"failed", "busy", "no-answer", "canceled", "error"}
                              then run.gathered["call_tags" :=
                                     Arr(tags + [Str("not_connected"), Str("telephony_" + s.status)])]
                              else run.gathered)
  {
  }

  /** Processing raises exactly when something other than a list is where the log or, for a failure, the tags
      belong. Then nothing is stored, or only the log entry. */
  lemma StatusRaisesExactly(run: Run, s: Status)
    ensures var noLog := "telephony_status_callbacks" in run.logs && !run.logs["telephony_status_callbacks"].Arr?;
            var noTags := "call_tags" in run.gathered && !run.gathered["call_tags"].Arr?;
            && (ProcessStatus(run, s).raised <==>
                noLog || (noTags && s.status in {"failed", "busy", "no-answer", "canceled", "error"}))
            && (noLog ==> ProcessStatus(run, s).run == run && ProcessStatus(run, s).outcome == None)
            && (ProcessStatus(run, s).raised ==>
                 ProcessStatus(run, s).run == run.(logs := ProcessStatus(run, s).run.logs))
  {
  }

  /** Which connects are accepted: those to a run still initialized whose workflow exists and whose stored
      provider is named and is the configured one. */
  lemma AcceptedExactly(run: Option<Run>, workflowExists: bool, configured: Option<string>)
    ensures AnswerTo(run, workflowExists, configured) == Accepted <==>
            && run.Some? && workflowExists && run.value.state == Initialized
            && configured.Some? && configured.value != ""
            && "provider" in run.value.initialContext && run.value.initialContext["provider"] == Str(configured.value)
    ensures AnswerTo(run, workflowExists, configured) == Closed(4404) <==> run.None? || !workflowExists
    ensures AnswerTo(run, workflowExists, configured) == Closed(4409) <==>
            run.Some? && workflowExists && run.value.state in {Running, Completed}
  {
  }

  /** The status log grows by exactly one entry per callback the run receives; repeated failures are
      not idempotent, each adds its two tags again. */
  lemma {:induction false} RepeatedFailuresRepeatTags(run: Run, failures: seq<Status>)
    requires ListAt(run.logs, LOG_KEY).Some? && ListAt(run.gathered, TAGS_KEY).Some?
    requires forall i :: 0 <= i < |failures| ==> IsFailure(failures[i].status)
    ensures var e := AfterAll(run, failures);
            && ListAt(e.logs, LOG_KEY).Some? && ListAt(e.gathered, TAGS_KEY).Some?
            && |ListAt(e.logs, LOG_KEY).value| == |ListAt(run.logs, LOG_KEY).value| + |failures|
            && |ListAt(e.gathered, TAGS_KEY).value| == |ListAt(run.gathered, TAGS_KEY).value| + 2 * |failures|
    decreases |failures|
  {
    if failures != [] {
      RepeatedFailuresRepeatTags(ProcessStatus(run, failures[0]).run, failures[1..]);
    }
  }

  function AfterAll(run: Run, statuses: seq<Status>): Run
    decreases |statuses|
  {
    if statuses == [] then run else AfterAll(ProcessStatus(run, statuses[0]).run, statuses[1..])
  }

  lemma MergingNothing(m: Object)
    ensures m + map[] == m
  {
  }

  lemma MergingOne(m: Object, key: string, value: Json)
    ensures m + map[key := value] == m[key := value]
  {
  }

  // ---------- The operations as written ----------

  class RunClient {
    var runs: map<int, Run>
    var accepted: seq<int>
    var outcomes: seq<(Json, string)>

    ghost function Now(): System
      reads this
    {
      System(runs, accepted, outcomes)
    }

    /** Merges the given fields into the locked row; false when there is no such run. */
    method UpdateWorkflowRun(id: int, c: Change) returns (found: bool)
      modifies this`runs
      ensures found <==> id in old(runs)
      ensures runs == if found then old(runs)[id := Merged(old(runs)[id], c)] else old(runs)
    {
      if id !in runs {
        return false;
      }
      var run := runs[id];
      MergingNothing(run.gathered);
      MergingNothing(run.logs);
      if c.initialContext != map[] {
        run := run.(initialContext := c.initialContext);
      }
      if c.gathered != map[] {
        run := run.(gathered := run.gathered + c.gathered);
      }
      if c.logs != map[] {
        run := run.(logs := run.logs + c.logs);
      }
      if c.isCompleted {
        run := run.(isCompleted := true);
      }
      if c.state.Some? {
        run := run.(state := c.state.value);
      }
      runs := runs[id := run];
      return true;
    }

    method ProcessStatusUpdate(id: int, s: Status) returns (raised: bool)
      modifies this
      ensures Now() == Step(old(Now()), Callback(id, s))
      ensures raised <==> id in old(runs) && ProcessStatus(old(runs)[id], s).raised
    {
      if id !in runs {
        return false;
      }
      var run := runs[id];
      var log := ListAt(run.logs, LOG_KEY);
      if log.None? {
        return true;
      }
      var entries := log.value + [LogEntry(s)];
      MergingNothing(run.gathered);
      MergingOne(run.logs, LOG_KEY, Arr(entries));
      MergingNothing(run.logs[LOG_KEY := Arr(entries)]);
      var found := UpdateWorkflowRun(id, NO_CHANGE.(logs := map[LOG_KEY := Arr(entries)]));
      var callback := Get(run.gathered, "callback_id");
      if Truthy(callback) && ConcludesCallback(s.status) {
        outcomes := outcomes + [(callback, s.status)];
      }
      if s.status == "completed" {
        if run.state != Completed {
          found := UpdateWorkflowRun(id, NO_CHANGE.(isCompleted := true, state := Some(Completed)));
        }
      } else if IsFailure(s.status) {
        var tags := ListAt(run.gathered, TAGS_KEY);
        if tags.None? {
          return true;
        }
        var extended := map[TAGS_KEY := Arr(tags.value + FailureTags(s.status))];
        MergingOne(run.gathered, TAGS_KEY, extended[TAGS_KEY]);
        found := UpdateWorkflowRun(id, NO_CHANGE.(isCompleted := true, state := Some(Completed), gathered := extended));
      }
      return false;
    }

    method HandleTelephonyWebsocket(id: int, workflowExists: bool, configured: Option<string>) returns (answer: Answer)
      modifies this
      ensures Now() == Step(old(Now()), Connect(id, workflowExists, configured))
      ensures answer == AnswerTo(Lookup(old(Now()), id), workflowExists, configured)
    {
      if id !in runs || !workflowExists {
        return Closed(4404);
      }
      if runs[id].state != Initialized {
        return Closed(4409);
      }
      var providerType := Get(runs[id].initialContext, "provider");
      if !Truthy(providerType) {
        return Closed(4400);
      }
      if configured.None? {
        return Raised;
      }
      if Str(configured.value) != providerType {
        return Closed(4400);
      }
      MergingNothing(runs[id].gathered);
      MergingNothing(runs[id].logs);
      var found := UpdateWorkflowRun(id, NO_CHANGE.(state := Some(Running)));
      accepted := accepted + [id];
      return Accepted;
    }
  }
}
